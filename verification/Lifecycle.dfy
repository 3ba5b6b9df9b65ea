/** The status state machine of an incident and the arithmetic of its paths. */
module Lifecycle {

  /** The four known severities; any other text is carried as `OtherSeverity`. */
  datatype Severity = Low | Medium | High | Critical | OtherSeverity(text: string) {
    predicate IsValid() {
      !OtherSeverity?
    }
  }

  /** The six known statuses; any other text is carried as `OtherStatus`. */
  datatype Status = New | Triaged | InProgress | Contained | Resolved | Closed | OtherStatus(text: string) {
    predicate IsValid() {
      !OtherStatus?
    }
  }

  const ALLOWED_TRANSITIONS: map<Status, set<Status>> := map[
    New := {Triaged},
    Triaged := {InProgress},
    InProgress := {Contained, Resolved},
    Contained := {Resolved},
    Resolved := {Closed, InProgress},
    Closed := {InProgress}
  ]

  /** Re-asserting the current status is always accepted. */
  predicate CanTransition(from: Status, to: Status) {
    || from == to
    || (from in ALLOWED_TRANSITIONS && to in ALLOWED_TRANSITIONS[from])
  }

  /** What a status_changed event records. */
  datatype Change = Change(from: Status, to: Status)

  predicate IsReopen(c: Change) {
    c.to == InProgress && (c.from == Resolved || c.from == Closed)
  }

  /** `cs` is a connected walk over the transition graph from `start` to `end`. */
  ghost predicate Path(cs: seq<Change>, start: Status, end: Status) {
    if cs == [] then
      start == end
    else
      var n := |cs| - 1;
      && cs[n].to == end
      && cs[n].from != end
      && CanTransition(cs[n].from, end)
      && Path(cs[..n], start, cs[n].from)
  }

  /** The number of changes that reopen a resolved or closed incident. */
  function Reopens(cs: seq<Change>): nat {
    if cs == [] then 0 else Reopens(cs[..|cs| - 1]) + if IsReopen(cs[|cs| - 1]) then 1 else 0
  }

  /** The number of changes into `closed`. */
  function Closings(cs: seq<Change>): nat {
    if cs == [] then 0 else Closings(cs[..|cs| - 1]) + if cs[|cs| - 1].to == Closed then 1 else 0
  }

  /** The number of changes out of `closed`. */
  function ClosedReopens(cs: seq<Change>): nat {
    if cs == [] then 0 else ClosedReopens(cs[..|cs| - 1]) + if cs[|cs| - 1].from == Closed then 1 else 0
  }

  /** Position along new, triaged, in_progress, contained, resolved, closed. */
  function Rank(s: Status): nat {
    match s
    case New => 0
    case Triaged => 1
    case InProgress => 2
    case Contained => 3
    case Resolved => 4
    case Closed => 5
    case OtherStatus(_) => 0
  }

  /** The least number of changes since the last closing, by current status. */
  function SinceClosing(s: Status): nat {
    match s
    case InProgress => 1
    case Contained => 2
    case Resolved => 2
    case _ => 0
  }

  /**
   * The legal moves, without the table: stay, one rank up, from in_progress straight to resolved, or
   * reopen a resolved or closed incident. An unknown status can only stay.
   */
  lemma {:induction false} LegalMoves(a: Status, b: Status)
    ensures CanTransition(a, b) <==>
            || a == b
            || (a.IsValid() && b.IsValid()
                && (|| Rank(b) == Rank(a) + 1
                    || (a == InProgress && b == Resolved)
                    || ((a == Resolved || a == Closed) && b == InProgress)))
  {
    assert a in ALLOWED_TRANSITIONS <==> a.IsValid();
  }

  /** Every walk from `new` stays among the six known statuses. */
  lemma {:induction false} PathStaysKnown(cs: seq<Change>, end: Status)
    requires Path(cs, New, end)
    ensures end.IsValid()
    ensures cs != [] ==> end != New
  {
    if cs != [] {
      PathStaysKnown(cs[..|cs| - 1], cs[|cs| - 1].from);
    }
  }

  lemma {:induction false} ChangesBoundedByRank(cs: seq<Change>, end: Status)
    requires Path(cs, New, end)
    ensures |cs| <= Rank(end) + 4 * Reopens(cs)
  {
    if cs != [] {
      ChangesBoundedByRank(cs[..|cs| - 1], cs[|cs| - 1].from);
      PathStaysKnown(cs[..|cs| - 1], cs[|cs| - 1].from);
    }
  }

  lemma {:induction false} ChangesSinceClosing(cs: seq<Change>, end: Status)
    requires Path(cs, New, end)
    ensures Closings(cs) == 0 ==> |cs| >= (if Rank(end) >= 4 then 3 else Rank(end)) && end != Closed
    ensures Closings(cs) > 0 ==> |cs| >= 3 * Closings(cs) + 1 + SinceClosing(end) && end != New && end != Triaged
  {
    if cs != [] {
      ChangesSinceClosing(cs[..|cs| - 1], cs[|cs| - 1].from);
      PathStaysKnown(cs[..|cs| - 1], cs[|cs| - 1].from);
    }
  }

  /**
   * Lifecycle arithmetic of a walk from `new`: with r reopens there are at most
   * 5 + 4r changes, k >= 1 closings take at least 3k + 1 changes, and closings
   * balance the changes out of `closed`.
   */
  lemma {:induction false} LifecycleArithmetic(cs: seq<Change>, end: Status)
    requires Path(cs, New, end)
    ensures |cs| <= 5 + 4 * Reopens(cs)
    ensures Closings(cs) > 0 ==> |cs| >= 3 * Closings(cs) + 1
    ensures Closings(cs) == ClosedReopens(cs) + if end == Closed then 1 else 0
  {
    ChangesBoundedByRank(cs, end);
    ChangesSinceClosing(cs, end);
    if cs != [] {
      LifecycleArithmetic(cs[..|cs| - 1], cs[|cs| - 1].from);
    }
  }

  /** The longest life with r reopens: up to `closed`, then r full rounds. */
  function LongestLife(r: nat): seq<Change> {
    if r == 0 then
      [Change(New, Triaged), Change(Triaged, InProgress)] + LastLeg()
    else
      LongestLife(r - 1) + [Change(Closed, InProgress)] + LastLeg()
  }

  function LastLeg(): seq<Change> {
    [Change(InProgress, Contained), Change(Contained, Resolved), Change(Resolved, Closed)]
  }

  lemma {:induction false} PathSnoc(cs: seq<Change>, start: Status, mid: Status, end: Status)
    requires Path(cs, start, mid) && mid != end && CanTransition(mid, end)
    ensures Path(cs + [Change(mid, end)], start, end)
    ensures Reopens(cs + [Change(mid, end)]) == Reopens(cs) + if IsReopen(Change(mid, end)) then 1 else 0
  {
    assert (cs + [Change(mid, end)])[..|cs|] == cs;
  }

  lemma {:induction false} PathLastLeg(cs: seq<Change>)
    requires Path(cs, New, InProgress)
    ensures Path(cs + LastLeg(), New, Closed) && Reopens(cs + LastLeg()) == Reopens(cs)
  {
    PathSnoc(cs, New, InProgress, Contained);
    var contained := cs + [Change(InProgress, Contained)];
    PathSnoc(contained, New, Contained, Resolved);
    var resolved := contained + [Change(Contained, Resolved)];
    PathSnoc(resolved, New, Resolved, Closed);
    assert resolved + [Change(Resolved, Closed)] == cs + LastLeg();
  }

  /** The bound 5 + 4r is reached for every r. */
  lemma {:induction false} LifecycleBoundIsTight(r: nat)
    ensures Path(LongestLife(r), New, Closed)
    ensures Reopens(LongestLife(r)) == r
    ensures |LongestLife(r)| == 5 + 4 * r
  {
    if r == 0 {
      PathSnoc([], New, New, Triaged);
      PathSnoc([] + [Change(New, Triaged)], New, Triaged, InProgress);
      var opening := [] + [Change(New, Triaged)] + [Change(Triaged, InProgress)];
      assert opening == [Change(New, Triaged), Change(Triaged, InProgress)];
      PathLastLeg(opening);
    } else {
      LifecycleBoundIsTight(r - 1);
      PathSnoc(LongestLife(r - 1), New, Closed, InProgress);
      PathLastLeg(LongestLife(r - 1) + [Change(Closed, InProgress)]);
    }
  }

  /** The quickest life with k closings: skip `contained` every time. */
  function QuickestLife(k: nat): seq<Change>
    requires k > 0
  {
    (if k == 1 then [Change(New, Triaged), Change(Triaged, InProgress)]
     else QuickestLife(k - 1) + [Change(Closed, InProgress)])
    + [Change(InProgress, Resolved), Change(Resolved, Closed)]
  }

  /** The bound 3k + 1 on k closings is reached for every k. */
  lemma {:induction false} ClosingBoundIsTight(k: nat)
    requires k > 0
    ensures Path(QuickestLife(k), New, Closed)
    ensures Closings(QuickestLife(k)) == k
    ensures |QuickestLife(k)| == 3 * k + 1
  {
    hide Path, Closings, Reopens;
    EmptyLife();
    var up: seq<Change>;
    if k == 1 {
      PathSnoc([], New, New, Triaged);
      ClosingSnoc([], Change(New, Triaged));
      PathSnoc([] + [Change(New, Triaged)], New, Triaged, InProgress);
      ClosingSnoc([] + [Change(New, Triaged)], Change(Triaged, InProgress));
      up := [] + [Change(New, Triaged)] + [Change(Triaged, InProgress)];
      assert up == [Change(New, Triaged), Change(Triaged, InProgress)];
    } else {
      ClosingBoundIsTight(k - 1);
      PathSnoc(QuickestLife(k - 1), New, Closed, InProgress);
      ClosingSnoc(QuickestLife(k - 1), Change(Closed, InProgress));
      up := QuickestLife(k - 1) + [Change(Closed, InProgress)];
    }
    PathSnoc(up, New, InProgress, Resolved);
    ClosingSnoc(up, Change(InProgress, Resolved));
    var resolved := up + [Change(InProgress, Resolved)];
    PathSnoc(resolved, New, Resolved, Closed);
    ClosingSnoc(resolved, Change(Resolved, Closed));
    assert resolved + [Change(Resolved, Closed)] == QuickestLife(k);
  }

  lemma {:induction false} EmptyLife()
    ensures Path([], New, New) && Closings([]) == 0
  {
  }

  lemma {:induction false} ClosingSnoc(cs: seq<Change>, c: Change)
    ensures Closings(cs + [c]) == Closings(cs) + if c.to == Closed then 1 else 0
  {
    assert (cs + [c])[..|cs|] == cs;
  }
}
