# Credential negotiation of a git push helper

This project models the core of a small Rust program that stages a file,
commits it and pushes the current branch with git2. The modelled part is the
credential callback built in `with_credentials`. git2 calls it once per
authentication round of one push. It keeps three "tried" flags across those
rounds: SSH agent key, credential helper, platform default.

Each round does four things, in this order:

1. It refuses any `allowed` set that contains `USERNAME`.
2. Otherwise it picks the first mechanism that is allowed and not yet tried, in
   the order SSH agent key, credential helper (`USER_PASS_PLAINTEXT`), platform
   default (`DEFAULT`).
3. It raises that mechanism's flag before calling the foreign constructor.
4. When nothing is left, it returns "No auth methods succeeded".

Two pure pieces sit beside it. One is the single refspec that `push` builds,
`refs/heads/<b>:refs/heads/<b>`. The other is the `"No commit message"`
placeholder that `display_commit` shows.

Files:

- `wrappers.dfy`: module `Wrappers`, an `Option` type for Rust's `Option<&str>`.
- `credentials.dfy`: module `Credentials`.
  - `Step` specifies one round on a value of the flags. `Run` folds it over a
    sequence of rounds.
  - The class `Negotiator` is the closure's captured state. It has three
    mutable `bool` fields and a `Round` method proved to follow `Step`. Ghost
    fields record the rounds so far.
- `refspec.dfy`: module `Refspecs`, the push refspec and the model's own
  inverse of it, which splits at the first `:`. That inverse is not git's
  refspec parser.
- `display.dfy`: module `Display`, the message fallback.

The three foreign constructors are `Cred::ssh_key_from_agent`,
`Cred::credential_helper` and `Cred::default`. Each becomes an `Outcome` that
records the arguments it is given: `FromAgent(user)`, `FromHelper(url, user)`
and `PlatformDefault`. Whether the constructor succeeds does not matter to the
model, because the flag is raised before the call either way.

Two behaviours of the code are worth stating on their own:

- The missing-username error does not depend on `username`. The code fails
  whenever `allowed` contains `USERNAME` (src/main.rs:89-90). `NoUsernameIff`
  states this.
- In the SSH branch the code calls `username.unwrap()` after it has raised the
  flag (src/main.rs:93-94). The model gives this case its own outcome,
  `UnwrapPanic`, and the SSH flag is raised in it. `UnwrapPanicIff` says
  exactly when it happens.

## Model

| member | source | states |
|---|---|---|
| `Credentials.Step` | src/main.rs:88-108 | One round: with `USERNAME` allowed it returns the username error and leaves the flags alone. Otherwise it raises exactly the flag of the mechanism it picks, and that mechanism was allowed and untried while every mechanism ranked above it was not available. When it picks nothing it returns the exhaustion error with nothing available. The agent key gets the round's username, and the helper gets the round's url and username. |
| `Credentials.PickedIffFirstAvailable` | src/main.rs:92-106 | A round picks mechanism `m` if and only if `USERNAME` is not allowed, `m` is allowed and untried, and no mechanism of higher priority is. |
| `Credentials.NoUsernameIff` | src/main.rs:89-90 | The username error is returned exactly when `allowed` contains `USERNAME`, whatever else is allowed and whether or not a username is given, and the flags do not change. |
| `Credentials.ExhaustedIff` | src/main.rs:108 | "No auth methods succeeded" is returned exactly when `USERNAME` is not allowed and no mechanism is both allowed and untried, and it changes no flag. |
| `Credentials.UnwrapPanicIff` | src/main.rs:92-95 | `username.unwrap()` fails exactly when the SSH key is the mechanism picked and the round carries no username. |
| `Credentials.OtherKindsIgnored` | src/main.rs:89-106 | Credential kinds other than `USERNAME`, `SSH_KEY`, `USER_PASS_PLAINTEXT` and `DEFAULT` in `allowed` do not change a round. |
| `Credentials.ErrorTextOfStep` | src/main.rs:89-108 | A round yields "No username specified in remote URL" exactly when `allowed` contains `USERNAME`. It yields "No auth methods succeeded" exactly when `USERNAME` is absent and nothing is both allowed and untried. It yields no error text of its own exactly when it picks a mechanism. The two texts differ. |
| `Credentials.Mark` | src/main.rs:93-104 | Raising a mechanism's flag makes that mechanism tried and leaves the other two flags as they were. |
| `Credentials.Run` | src/main.rs:84-108 | A sequence of rounds gives one outcome per round, and a flag that is up before the rounds is still up after them. |
| `Credentials.RunAppend` | src/main.rs:84-108 | Running rounds `a` and then rounds `b` on the resulting flags is the same as running `a + b`. |
| `Credentials.RunNoRepeat` | src/main.rs:84-106 | Across any sequence of rounds, every mechanism picked was untried at the start and is tried at the end, and no two rounds pick the same mechanism. |
| `Credentials.RunCount` | src/main.rs:93-104 | The number of rounds that picked a mechanism plus the flags up at the start equals the flags up at the end. |
| `Credentials.AtMostThreeAttempts` | src/main.rs:84-106 | From the fresh flags of one push, at most three rounds ever pick a mechanism. |
| `Credentials.RunAfterAllTried` | src/main.rs:89-108 | With all three flags up, every round returns the username error or the exhaustion error, and the flags stay as they are. |
| `Credentials.ExhaustionIsTerminal` | src/main.rs:84-108 | Once some rounds have raised every flag, no later round of the same push picks a mechanism, and the flags never change again. |
| `Credentials.Negotiator.constructor` | src/main.rs:84-86 | A push starts with all three flags down and no rounds. |
| `Credentials.Negotiator.Round` | src/main.rs:88-109 | One call of the callback on the object. The outcome and the new flags are exactly `Step` of the old flags. No flag goes down, and the round is added to the recorded history. |
| `Credentials.Negotiator.NoRepeat` | src/main.rs:84-106 | On a negotiator built by the constructor and `Round` calls, no two rounds have picked the same mechanism, and at most three have picked one. |
| `Credentials.FallbackScenario` | src/main.rs:84-108 | With all three mechanisms allowed and a username given, four rounds on one negotiator return the agent key, then the credential helper, then the platform default, then the exhaustion error. |
| `Refspecs.PushRefspec` | src/main.rs:67-70 | The refspec is `refs/heads/<b>:refs/heads/<b>`: the source half is the branch ref, it is followed by one `:`, and the destination half equals the source half. `PushRefspecRoundTrip` and `PushRefspecInjective` are its partners. |
| `Refspecs.PushRefspecRoundTrip` | src/main.rs:67-70 | For a branch name without `:`, the refspec splits at its colon into source and destination. Both are `refs/heads/<branch>`, and both name that same branch. |
| `Refspecs.PushRefspecInjective` | src/main.rs:67-70 | Different branch names give different refspecs. |
| `Display.ShownMessage` | src/main.rs:36 | The message is shown as it is when present. The placeholder "No commit message" is shown exactly when the message is absent or is that text itself. |

## Left out

- `open_repo`, `find_last_commit` and `add_and_commit` (src/main.rs:13-55) are left out. They are thin wrappers over git2's object database, index, refs and commit writing.
- The network push and the `RemoteCallbacks`/`PushOptions` wiring (src/main.rs:57-76) are left out, because they are transport I/O inside git2. Only the refspec string is modelled. `push` passes exactly one refspec, `PushRefspec(branch)`.
- `repo.config()` (src/main.rs:82) is left out. It is a foreign call, and the closure uses it only as an argument to the credential helper, which is opaque here. If it fails, `with_credentials` returns that error and no round runs.
- The bodies of `Cred::ssh_key_from_agent`, `Cred::credential_helper` and `Cred::default` are left out, because they touch the SSH agent, git config and the OS. They become the outcomes `FromAgent`, `FromHelper` and `PlatformDefault`. Their own success or failure is not modelled, because it does not affect the flags.
- What happens after a panic is left out. In the running program, git2 catches the panic inside the callback, skips later callbacks and resumes the panic once the push returns. That belongs to git2, not to this program. The model instead lets later rounds go on with the SSH flag raised, and the running program never reaches those rounds. The rounds of every real run are a prefix that ends at the first `UnwrapPanic`, so the lemmas over all sequences of rounds still cover them.
- `Refspecs.PushRefspecRoundTrip`: only branch names without `:` are covered, because git does not accept `:` in reference names. For other names the string is still built, but it does not split back into the branch.
- The timestamp conversion, the `rfc822` date and the rest of the `println!` text of `display_commit` (src/main.rs:28-38) are left out: library formatting and console output. So is all console output of `open_repo` and `main`.
- `main`'s hard-coded repository path and its `unwrap`/`expect` panics (src/main.rs:112-125) are left out. They are process plumbing.
- The hard-coded committer identity in `add_and_commit` (src/main.rs:44) is left out with the rest of that function. `Signature::now` also reads the clock.
