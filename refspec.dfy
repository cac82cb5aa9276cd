/**
 * The single refspec `push` hands to the transport: the local branch
 * mapped onto the identically named branch of the remote.
 */
module Refspecs {
  import opened Wrappers

  const HeadsPrefix: string := "refs/heads/"

  /** The full reference name of a branch. */
  function BranchRef(branch: string): string {
    HeadsPrefix + branch
  }

  /** The refspec built by `push` for `branch`: source and destination are the same branch ref. */
  function PushRefspec(branch: string): (r: string)
    ensures var k := |BranchRef(branch)|;
            |r| == 2 * k + 1 && r[..k] == BranchRef(branch) && r[k] == ':' && r[k + 1..] == r[..k]
  {
    BranchRef(branch) + ":" + BranchRef(branch)
  }

  /** The source and destination halves of a refspec. */
  datatype Mapping = Mapping(src: string, dst: string)

  /** Index of the first ':' in `s`, if any. */
  function ColonIndex(s: string): (r: Option<nat>)
    ensures r.Some? ==> r.value < |s| && s[r.value] == ':' && ':' !in s[..r.value]
    ensures r.None? ==> ':' !in s
  {
    if s == [] then None
    else if s[0] == ':' then Some(0)
    else
      match ColonIndex(s[1..])
      case None => None
      case Some(k) => Some(k + 1)
  }

  /**
   * Splits a refspec at its first ':' into source and destination. This is
   * the model's own inverse of `PushRefspec`, not git's refspec parser.
   */
  function Split(spec: string): Option<Mapping> {
    match ColonIndex(spec)
    case None => None
    case Some(k) => Some(Mapping(spec[..k], spec[k + 1..]))
  }

  /** The branch a full reference name denotes, when it is under `refs/heads/`. */
  function BranchOf(ref: string): (r: Option<string>)
    ensures r.Some? ==> BranchRef(r.value) == ref
  {
    if |HeadsPrefix| <= |ref| && ref[..|HeadsPrefix|] == HeadsPrefix then
      Some(ref[|HeadsPrefix|..])
    else
      None
  }

  /**
   * For a branch name without ':' (git refuses ':' in reference names) the
   * refspec splits into source and destination that both denote that branch
   * under `refs/heads/`.
   */
  lemma PushRefspecRoundTrip(branch: string)
    requires ':' !in branch
    ensures Split(PushRefspec(branch)) == Some(Mapping(BranchRef(branch), BranchRef(branch)))
    ensures BranchOf(BranchRef(branch)) == Some(branch)
  {
  }

  /** Distinct branches get distinct refspecs. */
  lemma PushRefspecInjective(a: string, b: string)
    requires PushRefspec(a) == PushRefspec(b)
    ensures a == b
  {
    assert |a| == |b|;
    var n := |HeadsPrefix|;
    assert PushRefspec(a)[n..n + |a|] == a;
    assert PushRefspec(b)[n..n + |b|] == b;
  }
}
