/** Error values as the deriver sees them: an identity, and the sentinel errors
    that can be reached by unwrapping. Go's `errors.Is` walks the wrap chain and
    compares each link with the target; here the chain is summarised by the set of
    sentinels it reaches, so `errors.Is` becomes identity-or-membership. */
module Errors {
  import opened Nullable

  /** The sentinel errors the deriver tests against: `io.EOF` and the derive
      package's `EngineELSyncing`, `ErrReset`, `ErrTemporary`, `ErrCritical`
      and `NotEnoughData`. */
  datatype Sentinel = EOF | EngineELSyncing | ErrReset | ErrTemporary | ErrCritical | NotEnoughData

  /** The identity of an error value: one of the sentinels itself, or some other
      error value, told apart from the rest by a number. */
  datatype ErrorId = SentinelId(sentinel: Sentinel) | Other(n: nat)

  /** An error value: its own identity and the sentinels found by unwrapping it
      (links strictly below itself). */
  datatype Error = Error(id: ErrorId, wrapped: set<Sentinel>)

  /** The sentinel error value itself, as returned unwrapped. */
  function SentinelError(s: Sentinel): (e: Error) {
    Error(SentinelId(s), {})
  }

  /** A fresh error value that wraps `cause` (as `fmt.Errorf("...: %w", cause)`
      does): it reaches every sentinel `cause` reaches and is none of them. */
  function Wrap(n: nat, cause: Error): (r: Error)
    ensures forall s :: Is(r, s) <==> Is(cause, s)
    ensures forall s :: !IsIdentical(r, s)
  {
    Error(Other(n), cause.wrapped + (if cause.id.SentinelId? then {cause.id.sentinel} else {}))
  }

  /** `err == s`: comparison of interface values, true only for the sentinel itself. */
  predicate IsIdentical(e: Error, s: Sentinel) {
    e.id == SentinelId(s)
  }

  /** `errors.Is(err, s)`: the error is the sentinel or wraps it. */
  predicate Is(e: Error, s: Sentinel) {
    e.id == SentinelId(s) || s in e.wrapped
  }

  /** The order in which the deriver consults the sentinels. */
  const Precedence: seq<Sentinel> := [EOF, EngineELSyncing, ErrReset, ErrTemporary, ErrCritical, NotEnoughData]

  /** Where a sentinel stands in the precedence order. */
  function Rank(s: Sentinel): (i: nat)
    ensures i < |Precedence| && Precedence[i] == s
  {
    match s
    case EOF => 0
    case EngineELSyncing => 1
    case ErrReset => 2
    case ErrTemporary => 3
    case ErrCritical => 4
    case NotEnoughData => 5
  }

  /** The test the deriver applies for one sentinel: identity for `io.EOF`,
      `errors.Is` for all the others. */
  predicate Matches(e: Error, s: Sentinel) {
    if s == EOF then IsIdentical(e, s) else Is(e, s)
  }

  /** The position of the first sentinel in `order` that `e` matches, if any. */
  function FirstMatch(e: Error, order: seq<Sentinel>): (r: Option<nat>)
    ensures r.Some? ==> r.value < |order| && Matches(e, order[r.value])
    ensures r.Some? ==> forall k :: 0 <= k < r.value ==> !Matches(e, order[k])
    ensures r.None? ==> forall k :: 0 <= k < |order| ==> !Matches(e, order[k])
  {
    if order == [] then None
    else if Matches(e, order[0]) then Some(0)
    else match FirstMatch(e, order[1..])
      case None => None
      case Some(i) => Some(i + 1)
  }

  /** The failure categories a step can end in, one per sentinel, plus the
      catch-all for errors that match none of them. */
  datatype ErrorKind = Exhausted | ConsumerSyncing | ResetRequired | Temporary | Critical | InsufficientData | Unclassified

  /** The category a sentinel stands for. */
  function KindOf(s: Sentinel): (k: ErrorKind) {
    match s
    case EOF => Exhausted
    case EngineELSyncing => ConsumerSyncing
    case ErrReset => ResetRequired
    case ErrTemporary => Temporary
    case ErrCritical => Critical
    case NotEnoughData => InsufficientData
  }

  /** The category of an error: that of the first sentinel it matches in
      precedence order, or Unclassified when it matches none. */
  function Kind(e: Error): (k: ErrorKind) {
    match FirstMatch(e, Precedence)
    case None => Unclassified
    case Some(i) => KindOf(Precedence[i])
  }

  /** An error falls in a sentinel's category exactly when it matches that
      sentinel and no sentinel of higher precedence. */
  lemma KindIsHighestPrecedenceMatch(e: Error, s: Sentinel)
    ensures Kind(e) == KindOf(s) <==> Matches(e, s) && forall t :: Rank(t) < Rank(s) ==> !Matches(e, t)
  {
  }

  /** An error matches no sentinel at all exactly when it is Unclassified. */
  lemma {:induction false} UnclassifiedIffNoMatch(e: Error)
    ensures Kind(e) == Unclassified <==> forall s :: !Matches(e, s)
  {
    var r := FirstMatch(e, Precedence);
    if Kind(e) == Unclassified {
      forall s ensures !Matches(e, s) {
        assert Precedence[Rank(s)] == s;
      }
    } else {
      assert r.Some?;
      assert Matches(e, Precedence[r.value]);
    }
  }
}
