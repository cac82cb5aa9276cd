/**
 * The credential negotiation of `with_credentials`: a callback that the
 * transport calls once per authentication round of one push, and three
 * "tried" flags that the callback keeps across those rounds.
 *
 * `Step` is the specification of one round on a value of the flags, `Run`
 * folds it over a sequence of rounds, and `Negotiator` is the imperative
 * closure itself: three mutable booleans and a `Round` method proved to
 * follow `Step`.
 */
module Credentials {
  import opened Wrappers

  /** The bits of git2's `CredentialType` that a remote may offer in `allowed`. */
  datatype CredentialType =
    | UserPassPlaintext
    | SshKey
    | SshCustom
    | Default
    | SshInteractive
    | Username
    | SshMemory

  /** The three mechanisms the callback can try, one flag each. */
  datatype Mechanism = SshAgentKey | CredentialHelper | DefaultCredential

  /** The `CredentialType` bit that allows a mechanism. */
  function Flag(m: Mechanism): CredentialType {
    match m
    case SshAgentKey => SshKey
    case CredentialHelper => UserPassPlaintext
    case DefaultCredential => Default
  }

  /** Position of a mechanism in the order the callback considers them. */
  function Rank(m: Mechanism): nat {
    match m
    case SshAgentKey => 0
    case CredentialHelper => 1
    case DefaultCredential => 2
  }

  /** The values of `tried_sshkey`, `tried_cred_helper` and `tried_default`. */
  datatype Tried = Tried(sshKey: bool, credHelper: bool, defaultCred: bool)

  /** The flags as `with_credentials` creates them, once per push. */
  const Fresh: Tried := Tried(false, false, false)

  predicate IsTried(t: Tried, m: Mechanism) {
    match m
    case SshAgentKey => t.sshKey
    case CredentialHelper => t.credHelper
    case DefaultCredential => t.defaultCred
  }

  /** `t` with the flag of `m` raised. */
  function Mark(t: Tried, m: Mechanism): (r: Tried)
    ensures forall m' :: IsTried(r, m') <==> m' == m || IsTried(t, m')
  {
    match m
    case SshAgentKey => t.(sshKey := true)
    case CredentialHelper => t.(credHelper := true)
    case DefaultCredential => t.(defaultCred := true)
  }

  /** `t` with the flag of `m` raised, if there is a mechanism. */
  function MarkSlot(t: Tried, m: Option<Mechanism>): Tried {
    match m
    case None => t
    case Some(k) => Mark(t, k)
  }

  /** How many of the three flags are raised. */
  function TriedCount(t: Tried): nat {
    (if t.sshKey then 1 else 0) + (if t.credHelper then 1 else 0) + (if t.defaultCred then 1 else 0)
  }

  predicate AllTried(t: Tried) {
    t.sshKey && t.credHelper && t.defaultCred
  }

  /** A mechanism may be tried in a round: the remote allows it and it has not been tried. */
  predicate Available(t: Tried, allowed: set<CredentialType>, m: Mechanism) {
    Flag(m) in allowed && !IsTried(t, m)
  }

  /** What the transport hands to the callback in one round: `(url, username, allowed)`. */
  datatype Request = Request(url: string, username: Option<string>, allowed: set<CredentialType>)

  /**
   * What one round returns. The first three stand for the foreign
   * constructors the callback delegates to, with the arguments it passes
   * them; whether those succeed is theirs to decide and does not affect the
   * flags. `UnwrapPanic` is `username.unwrap()` failing on a missing name.
   */
  datatype Outcome =
    | FromAgent(user: string)                              // the SSH agent key, asked for with the round's username
    | FromHelper(url: string, helperUser: Option<string>)  // the git credential helper, given the round's url and username
    | PlatformDefault                                      // the host platform's default credential
    | UnwrapPanic
    | NoUsername
    | Exhausted

  const NoUsernameMessage: string := "No username specified in remote URL"
  const ExhaustedMessage: string := "No auth methods succeeded"

  /** The text of the error the callback itself builds, if the outcome is one. */
  function ErrorText(o: Outcome): Option<string> {
    match o
    case NoUsername => Some(NoUsernameMessage)
    case Exhausted => Some(ExhaustedMessage)
    case _ => None
  }

  /** The mechanism whose flag a round with this outcome raised. */
  function Slot(o: Outcome): Option<Mechanism> {
    match o
    case FromAgent(_) => Some(SshAgentKey)
    case UnwrapPanic => Some(SshAgentKey)
    case FromHelper(_, _) => Some(CredentialHelper)
    case PlatformDefault => Some(DefaultCredential)
    case _ => None
  }

  datatype Reply = Reply(outcome: Outcome, next: Tried)

  /** One round of the callback on flags `t`. */
  function Step(t: Tried, q: Request): (r: Reply)
    // USERNAME in `allowed` is refused before anything else, flags untouched
    ensures Username in q.allowed ==> r == Reply(NoUsername, t)
    // exactly the flag of the chosen mechanism goes up, and only it
    ensures r.next == MarkSlot(t, Slot(r.outcome))
    // the chosen mechanism was allowed and untried, and none before it in priority was
    ensures Slot(r.outcome).Some? ==>
              Username !in q.allowed && Available(t, q.allowed, Slot(r.outcome).value) &&
              forall m :: Rank(m) < Rank(Slot(r.outcome).value) ==> !Available(t, q.allowed, m)
    // nothing chosen without USERNAME: nothing was available, and the round is exhausted
    ensures Slot(r.outcome).None? && Username !in q.allowed ==>
              r.outcome == Exhausted && forall m :: !Available(t, q.allowed, m)
    // the foreign constructors receive the round's own url and username
    ensures r.outcome.FromAgent? ==> q.username == Some(r.outcome.user)
    ensures r.outcome == UnwrapPanic ==> q.username == None
    ensures r.outcome.FromHelper? ==> r.outcome.url == q.url && r.outcome.helperUser == q.username
  {
    if Username in q.allowed then
      Reply(NoUsername, t)
    else if SshKey in q.allowed && !t.sshKey then
      var o := match q.username
        case Some(u) => FromAgent(u)
        case None => UnwrapPanic;
      Reply(o, t.(sshKey := true))
    else if UserPassPlaintext in q.allowed && !t.credHelper then
      Reply(FromHelper(q.url, q.username), t.(credHelper := true))
    else if Default in q.allowed && !t.defaultCred then
      Reply(PlatformDefault, t.(defaultCred := true))
    else
      Reply(Exhausted, t)
  }

  /** A round picks `m` exactly when `m` is the first available mechanism in priority order. */
  lemma PickedIffFirstAvailable(t: Tried, q: Request, m: Mechanism)
    ensures Slot(Step(t, q).outcome) == Some(m) <==>
              Username !in q.allowed && Available(t, q.allowed, m) &&
              forall m' :: Rank(m') < Rank(m) ==> !Available(t, q.allowed, m')
  {
  }

  /** The USERNAME error is returned exactly when `allowed` contains USERNAME. */
  lemma NoUsernameIff(t: Tried, q: Request)
    ensures Step(t, q).outcome == NoUsername <==> Username in q.allowed
    ensures Step(t, q).outcome == NoUsername ==> Step(t, q).next == t
  {
  }

  /** The exhaustion error is returned exactly when no allowed mechanism is left, and changes nothing. */
  lemma ExhaustedIff(t: Tried, q: Request)
    ensures Step(t, q).outcome == Exhausted <==>
              Username !in q.allowed && forall m :: !Available(t, q.allowed, m)
    ensures Step(t, q).outcome == Exhausted ==> Step(t, q).next == t
  {
  }

  /**
   * The callback's own error texts tell its two errors apart: the USERNAME
   * text comes exactly from a round that allows USERNAME, the exhaustion
   * text exactly from a round with nothing left to try.
   */
  lemma ErrorTextOfStep(t: Tried, q: Request)
    ensures ErrorText(Step(t, q).outcome) == Some(NoUsernameMessage) <==> Username in q.allowed
    ensures ErrorText(Step(t, q).outcome) == Some(ExhaustedMessage) <==>
              Username !in q.allowed && forall m :: !Available(t, q.allowed, m)
    ensures ErrorText(Step(t, q).outcome).None? <==> Slot(Step(t, q).outcome).Some?
    ensures NoUsernameMessage != ExhaustedMessage
  {
  }

  /** `username.unwrap()` is reached exactly when the SSH key is picked without a username. */
  lemma UnwrapPanicIff(t: Tried, q: Request)
    ensures Step(t, q).outcome == UnwrapPanic <==>
              Username !in q.allowed && Available(t, q.allowed, SshAgentKey) && q.username == None
  {
  }

  /** Bits other than USERNAME, SSH_KEY, USER_PASS_PLAINTEXT and DEFAULT do not influence a round. */
  lemma OtherKindsIgnored(t: Tried, q: Request)
    ensures Step(t, q) == Step(t, q.(allowed := q.allowed * {Username, SshKey, UserPassPlaintext, Default}))
  {
  }

  /** The outcomes of a sequence of rounds on one set of flags, and the flags after them. */
  datatype Trace = Trace(outcomes: seq<Outcome>, final: Tried)

  function Run(t: Tried, qs: seq<Request>): (r: Trace)
    ensures |r.outcomes| == |qs|
    ensures forall m :: IsTried(t, m) ==> IsTried(r.final, m)
    decreases |qs|
  {
    if qs == [] then
      Trace([], t)
    else
      var s := Step(t, qs[0]);
      var rest := Run(s.next, qs[1..]);
      Trace([s.outcome] + rest.outcomes, rest.final)
  }

  /** Number of rounds that tried a mechanism. */
  function Attempts(os: seq<Outcome>): nat {
    if os == [] then 0 else (if Slot(os[0]).Some? then 1 else 0) + Attempts(os[1..])
  }

  /** Running `a` and then `b` is running `a + b`. */
  lemma {:induction false} RunAppend(t: Tried, a: seq<Request>, b: seq<Request>)
    ensures Run(t, a + b) ==
              Trace(Run(t, a).outcomes + Run(Run(t, a).final, b).outcomes, Run(Run(t, a).final, b).final)
    decreases |a|
  {
    if a == [] {
      assert a + b == b;
    } else {
      var s := Step(t, a[0]);
      assert (a + b)[0] == a[0];
      assert (a + b)[1..] == a[1..] + b;
      RunAppend(s.next, a[1..], b);
      assert [s.outcome] + Run(s.next, a[1..]).outcomes + Run(Run(s.next, a[1..]).final, b).outcomes ==
             [s.outcome] + (Run(s.next, a[1..]).outcomes + Run(Run(s.next, a[1..]).final, b).outcomes);
    }
  }

  /** Every mechanism picked by one of `os` is untried in `t`. */
  predicate PicksUntried(t: Tried, os: seq<Outcome>) {
    forall i :: 0 <= i < |os| && Slot(os[i]).Some? ==> !IsTried(t, Slot(os[i]).value)
  }

  /** Every mechanism picked by one of `os` is tried in `t`. */
  predicate PicksTried(t: Tried, os: seq<Outcome>) {
    forall i :: 0 <= i < |os| && Slot(os[i]).Some? ==> IsTried(t, Slot(os[i]).value)
  }

  /** No two of `os` pick the same mechanism. */
  predicate PicksDistinct(os: seq<Outcome>) {
    forall i, j :: 0 <= i < j < |os| && Slot(os[i]).Some? ==> Slot(os[i]) != Slot(os[j])
  }

  /**
   * No mechanism is tried twice: every mechanism a round picks was untried
   * before the rounds began and is tried after them, and no two rounds pick
   * the same one.
   */
  lemma {:induction false} RunNoRepeat(t: Tried, qs: seq<Request>)
    ensures PicksUntried(t, Run(t, qs).outcomes)
    ensures PicksTried(Run(t, qs).final, Run(t, qs).outcomes)
    ensures PicksDistinct(Run(t, qs).outcomes)
    decreases |qs|
  {
    if qs != [] {
      var s := Step(t, qs[0]);
      var rest := Run(s.next, qs[1..]);
      var os := Run(t, qs).outcomes;
      RunNoRepeat(s.next, qs[1..]);
      assert os == [s.outcome] + rest.outcomes;
      assert Run(t, qs).final == rest.final;
      if Slot(s.outcome).Some? {
        assert s.next == Mark(t, Slot(s.outcome).value);
      }
      forall i | 0 <= i < |os| && Slot(os[i]).Some?
        ensures !IsTried(t, Slot(os[i]).value) && IsTried(rest.final, Slot(os[i]).value)
      {
        if i > 0 {
          assert os[i] == rest.outcomes[i - 1];
        }
      }
      forall i, j | 0 <= i < j < |os| && Slot(os[i]).Some?
        ensures Slot(os[i]) != Slot(os[j])
      {
        assert os[j] == rest.outcomes[j - 1];
        if i > 0 {
          assert os[i] == rest.outcomes[i - 1];
        }
      }
    }
  }

  /** Each round that tries a mechanism raises exactly one more flag. */
  lemma {:induction false} RunCount(t: Tried, qs: seq<Request>)
    ensures Attempts(Run(t, qs).outcomes) + TriedCount(t) == TriedCount(Run(t, qs).final)
    decreases |qs|
  {
    if qs != [] {
      var s := Step(t, qs[0]);
      var rest := Run(s.next, qs[1..]);
      RunCount(s.next, qs[1..]);
      var os := Run(t, qs).outcomes;
      assert os == [s.outcome] + rest.outcomes;
      assert os[1..] == rest.outcomes;
    }
  }

  /** Over all rounds of one push, at most three rounds yield a credential attempt. */
  lemma AtMostThreeAttempts(qs: seq<Request>)
    ensures Attempts(Run(Fresh, qs).outcomes) <= 3
  {
    RunCount(Fresh, qs);
  }

  /** Once all three flags are raised, every round is an error and changes nothing. */
  lemma {:induction false} RunAfterAllTried(t: Tried, qs: seq<Request>)
    requires AllTried(t)
    ensures Run(t, qs).final == t
    ensures forall i :: 0 <= i < |qs| ==>
              Run(t, qs).outcomes[i] == NoUsername || Run(t, qs).outcomes[i] == Exhausted
    decreases |qs|
  {
    if qs != [] {
      var s := Step(t, qs[0]);
      RunAfterAllTried(s.next, qs[1..]);
      assert Run(t, qs).outcomes == [s.outcome] + Run(s.next, qs[1..]).outcomes;
      forall i | 0 <= i < |qs|
        ensures Run(t, qs).outcomes[i] == NoUsername || Run(t, qs).outcomes[i] == Exhausted
      {
        if i > 0 {
          assert Run(t, qs).outcomes[i] == Run(s.next, qs[1..]).outcomes[i - 1];
        }
      }
    }
  }

  /** Exhaustion is terminal: after rounds `a` have raised every flag, no later round `b` yields a credential. */
  lemma {:induction false} ExhaustionIsTerminal(t: Tried, a: seq<Request>, b: seq<Request>)
    requires AllTried(Run(t, a).final)
    ensures forall i :: |a| <= i < |a| + |b| ==>
              Run(t, a + b).outcomes[i] == NoUsername || Run(t, a + b).outcomes[i] == Exhausted
    ensures Run(t, a + b).final == Run(t, a).final
  {
    var first := Run(t, a);
    var second := Run(first.final, b);
    var whole := Run(t, a + b);
    RunAppend(t, a, b);
    RunAfterAllTried(first.final, b);
    assert whole.outcomes == first.outcomes + second.outcomes;
    forall i | |a| <= i < |a| + |b|
      ensures whole.outcomes[i] == NoUsername || whole.outcomes[i] == Exhausted
    {
      assert whole.outcomes[i] == second.outcomes[i - |a|];
    }
  }

  /**
   * The state the closure of `with_credentials` captures: the three flags,
   * raised in place by successive calls to `Round`. The ghost fields record
   * the rounds so far and what each returned.
   */
  class Negotiator {
    var triedSshKey: bool
    var triedCredHelper: bool
    var triedDefault: bool
    ghost var rounds: seq<Request>
    ghost var outcomes: seq<Outcome>

    function State(): Tried
      reads this
    {
      Tried(triedSshKey, triedCredHelper, triedDefault)
    }

    /** The flags and outcomes are those of running every round so far from fresh flags. */
    ghost predicate Valid()
      reads this
    {
      Run(Fresh, rounds) == Trace(outcomes, State())
    }

    /** `with_credentials` starts every push with all three flags down. */
    constructor ()
      ensures Valid()
      ensures State() == Fresh && rounds == [] && outcomes == []
    {
      triedSshKey, triedCredHelper, triedDefault := false, false, false;
      rounds, outcomes := [], [];
    }

    /** One call of the credential callback. */
    method Round(url: string, username: Option<string>, allowed: set<CredentialType>) returns (o: Outcome)
      requires Valid()
      modifies this
      ensures Valid()
      ensures Step(old(State()), Request(url, username, allowed)) == Reply(o, State())
      ensures forall m :: old(IsTried(State(), m)) ==> IsTried(State(), m)
      ensures rounds == old(rounds) + [Request(url, username, allowed)]
      ensures outcomes == old(outcomes) + [o]
    {
      if Username in allowed {
        o := NoUsername;
      } else if SshKey in allowed && !triedSshKey {
        triedSshKey := true;
        match username {
          case Some(u) => o := FromAgent(u);
          case None => o := UnwrapPanic;
        }
      } else if UserPassPlaintext in allowed && !triedCredHelper {
        triedCredHelper := true;
        o := FromHelper(url, username);
      } else if Default in allowed && !triedDefault {
        triedDefault := true;
        o := PlatformDefault;
      } else {
        o := Exhausted;
      }
      var q := Request(url, username, allowed);
      RunAppend(Fresh, rounds, [q]);
      assert Run(old(State()), [q]) == Trace([o], State());
      rounds := rounds + [q];
      outcomes := outcomes + [o];
    }

    /** Within one push no mechanism is tried twice, so at most three rounds yield an attempt. */
    lemma NoRepeat()
      requires Valid()
      ensures PicksDistinct(outcomes)
      ensures Attempts(outcomes) <= 3
    {
      RunNoRepeat(Fresh, rounds);
      AtMostThreeAttempts(rounds);
    }
  }

  /**
   * All three mechanisms allowed and each attempt rejected by the remote:
   * four rounds on one negotiator try the agent key, then the credential
   * helper, then the platform default, and then report exhaustion.
   */
  method FallbackScenario(url: string, user: string) returns (os: seq<Outcome>)
    ensures os == [FromAgent(user), FromHelper(url, Some(user)), PlatformDefault, Exhausted]
  {
    var n := new Negotiator();
    var all := {SshKey, UserPassPlaintext, Default};
    var o1 := n.Round(url, Some(user), all);
    var o2 := n.Round(url, Some(user), all);
    var o3 := n.Round(url, Some(user), all);
    var o4 := n.Round(url, Some(user), all);
    os := [o1, o2, o3, o4];
  }
}
