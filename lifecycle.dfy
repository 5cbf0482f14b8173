/**
 * The booking status machine: the transition table with its legacy rows, the
 * normalisation of the stored and the requested status, the milestone each target
 * stamps, and the display label of a status.
 */
module Lifecycle {
  import opened Text

  /** The statuses of the lifecycle; `Unknown` stands for any text outside it. */
  datatype Status = Pending | Accepted | EnRoute | Working | Completed | Paid | Cancelled | Unknown

  /** Lower-case letters and underscores, as every stored status is written. */
  predicate SnakeCase(s: string)
  {
    s != [] && forall i :: 0 <= i < |s| ==> IsLower(s[i]) || s[i] == '_'
  }

  /** Snake-case text is its own `strip()` and its own `lower()`. */
  lemma SnakeCasePlain(s: string)
    requires SnakeCase(s)
    ensures Strip(s) == s && Lower(s) == s
  {
    StripNoop(s);
    LowerNoop(s);
  }

  /** The text the code stores for a status. */
  function Name(st: Status): (n: string)
    ensures SnakeCase(n)
  {
    match st
    case Pending => "pending"
    case Accepted => "accepted"
    case EnRoute => "en_route"
    case Working => "working"
    case Completed => "completed"
    case Paid => "paid"
    case Cancelled => "cancelled"
    case Unknown => "unknown"
  }

  /**
   * The row of the transition table a (lower-cased) status text selects. The legacy
   * rows `requested` and `in_progress` carry the same targets as `pending` and
   * `working`, so they select those rows.
   */
  function RowOf(s: string): Status
  {
    if s == "pending" || s == "requested" then Pending
    else if s == "accepted" then Accepted
    else if s == "en_route" then EnRoute
    else if s == "working" || s == "in_progress" then Working
    else if s == "completed" then Completed
    else if s == "paid" then Paid
    else if s == "cancelled" then Cancelled
    else Unknown
  }

  /** `BOOKING_TRANSITIONS.get(status, set())`. */
  function Targets(st: Status): set<Status>
  {
    match st
    case Pending => {Accepted, Cancelled}
    case Accepted => {EnRoute, Cancelled}
    case EnRoute => {Working, Cancelled}
    case Working => {Completed, Cancelled}
    case Completed => {Paid}
    case _ => {}
  }

  /** The stored status as the state machine reads it: lower-cased, `requested` and `in_progress` mapped. */
  function NormalizeCurrent(raw: string): Status
  {
    RowOf(Lower(raw))
  }

  /** The requested status as the state machine reads it: stripped, lower-cased, `rejected` read as `cancelled`. */
  function NormalizeTarget(raw: string): Status
  {
    var t := Lower(Strip(raw));
    if t == "rejected" then Cancelled
    else if t == "requested" || t == "in_progress" then Unknown  // not a target of any row
    else RowOf(t)
  }

  /** The move from stored status `current` to requested status `target` is in the table. */
  predicate CanMove(current: string, target: string)
  {
    NormalizeTarget(target) in Targets(NormalizeCurrent(current))
  }

  /** Reading back the stored text of a status gives the status. */
  lemma NameRoundTrip(st: Status)
    requires st != Unknown
    ensures RowOf(Name(st)) == st
  {
  }

  /** The lifecycle as a list of edges, the reference against which the table is checked. */
  const Edges: set<(Status, Status)> := {
    (Pending, Accepted), (Pending, Cancelled),
    (Accepted, EnRoute), (Accepted, Cancelled),
    (EnRoute, Working), (EnRoute, Cancelled),
    (Working, Completed), (Working, Cancelled),
    (Completed, Paid)
  }

  /** The table holds exactly the edges of the lifecycle. */
  lemma TargetsAreEdges(from: Status, to: Status)
    ensures to in Targets(from) <==> (from, to) in Edges
  {
  }

  /** `paid`, `cancelled` and statuses outside the lifecycle allow no move. */
  lemma TerminalStatuses(st: Status)
    requires st in {Paid, Cancelled, Unknown}
    ensures Targets(st) == {}
  {
  }

  /** A legacy stored name behaves as the status it stands for. */
  lemma LegacyCurrentAliases()
    ensures NormalizeCurrent("requested") == NormalizeCurrent("pending") == Pending
    ensures NormalizeCurrent("in_progress") == NormalizeCurrent("working") == Working
  {
    LowerNoop("requested");
    LowerNoop("pending");
    LowerNoop("in_progress");
    LowerNoop("working");
  }

  /** Asking for a status by its stored text asks for that status. */
  lemma NormalizeTargetName(st: Status)
    requires st != Unknown
    ensures NormalizeTarget(Name(st)) == st
  {
    SnakeCasePlain(Name(st));
    NameRoundTrip(st);
  }

  /** Asking for `rejected` is asking for `cancelled`. */
  lemma RejectedMeansCancelled()
    ensures NormalizeTarget("rejected") == Cancelled
  {
    var r := "rejected";
    assert Strip(r) == r by { StripNoop(r); }
    assert Lower(r) == r by { LowerNoop(r); }
  }

  /** A stored status this code wrote reads back as itself. */
  lemma NormalizeCurrentName(st: Status)
    requires st != Unknown
    ensures NormalizeCurrent(Name(st)) == st
  {
    SnakeCasePlain(Name(st));
    NameRoundTrip(st);
  }

  /** The move from the stored status `st` to requested status `target` is in the table. */
  predicate CanMoveFrom(st: Status, target: string)
  {
    NormalizeTarget(target) in Targets(st)
  }

  /** For a status this code wrote, the table is consulted at the row of that very status. */
  lemma CanMoveStored(st: Status, target: string)
    requires st != Unknown
    ensures CanMove(Name(st), target) <==> CanMoveFrom(st, target)
  {
    NormalizeCurrentName(st);
  }

  /**
   * A move is possible only from a status that holds its slot and is not yet paid,
   * to a known status; `paid` is reached only from `completed`.
   */
  lemma MovableStatus(st: Status, t: Status)
    requires t in Targets(st)
    ensures st in ActiveStatuses && st != Paid && t != Unknown
    ensures t == Paid <==> st == Completed
  {
  }

  /** Position of a status along the lifecycle; a cancelled booking is past every other status. */
  function Rank(st: Status): nat
  {
    match st
    case Pending => 0
    case Accepted => 1
    case EnRoute => 2
    case Working => 3
    case Completed => 4
    case Paid => 5
    case Cancelled => 6
    case Unknown => 7
  }

  /** Every move of the table goes to a known status further along the lifecycle. */
  lemma MovesProgress(from: Status, to: Status)
    requires to in Targets(from)
    ensures to != Unknown && Rank(from) < Rank(to)
  {
  }

  /** A sequence of statuses in which each is reachable in one move from the one before. */
  predicate IsRun(run: seq<Status>)
  {
    forall i :: 0 <= i < |run| - 1 ==> run[i + 1] in Targets(run[i])
  }

  /** Along any run, statuses strictly progress, so no status (and no milestone) is entered twice. */
  lemma {:induction false} RunProgresses(run: seq<Status>)
    requires IsRun(run)
    ensures forall i, j :: 0 <= i < j < |run| ==> Rank(run[i]) < Rank(run[j])
    ensures forall i, j :: 0 <= i < j < |run| ==> run[i] != run[j]
  {
    if |run| > 1 {
      var rest := run[1..];
      assert IsRun(rest) by {
        forall i | 0 <= i < |rest| - 1 ensures rest[i + 1] in Targets(rest[i]) {
          assert rest[i] == run[i + 1] && rest[i + 1] == run[i + 2];
        }
      }
      RunProgresses(rest);
      MovesProgress(run[0], run[1]);
      forall i, j | 0 <= i < j < |run| ensures Rank(run[i]) < Rank(run[j]) {
        if i > 0 {
          assert run[i] == rest[i - 1] && run[j] == rest[j - 1];
        } else if j > 1 {
          assert run[1] == rest[0] && run[j] == rest[j - 1];
        }
      }
    }
  }

  /** The statuses that hold a tractor's time slot (`_has_conflict`). */
  const ActiveStatuses: set<Status> := {Pending, Accepted, EnRoute, Working, Completed, Paid}

  /** The statuses that count as demand in a pincode (`_surge_multiplier_for_pincode`, the catalog's `high_demand`). */
  const PipelineStatuses: set<Status> := {Pending, Accepted, EnRoute, Working}

  /** The texts this code writes into `status`. */
  const StatusNames: set<string> := {"pending", "accepted", "en_route", "working", "completed", "paid", "cancelled"}

  /** Only a cancelled booking frees its slot; the pipeline is the active statuses before completion. */
  lemma StatusSets()
    ensures forall st :: st in ActiveStatuses <==> st != Cancelled && st != Unknown
    ensures PipelineStatuses == ActiveStatuses - {Completed, Paid}
    ensures forall st :: st != Unknown ==> Name(st) in StatusNames
  {
  }

  /** The half-open windows [s1, e1) and [s2, e2) share some instant (`start < new_end and end > new_start`). */
  predicate Overlaps(s1: int, e1: int, s2: int, e2: int)
  {
    s1 < e2 && e1 > s2
  }

  /** Overlap is symmetric, back-to-back windows never overlap, and a window overlaps itself when it is not empty. */
  lemma OverlapFacts(s1: int, e1: int, s2: int, e2: int)
    ensures Overlaps(s1, e1, s2, e2) == Overlaps(s2, e2, s1, e1)
    ensures e1 == s2 ==> !Overlaps(s1, e1, s2, e2)
    ensures s1 < e1 ==> Overlaps(s1, e1, s1, e1)
  {
  }

  /** The booking field a successful move stamps with the current time. */
  datatype Milestone = AcceptedAt | CancelledAt | EnRouteAt | StartedAt | CompletedAt | SettledBySettlement | NoMilestone

  function MilestoneOf(target: Status): Milestone
  {
    match target
    case Accepted => AcceptedAt
    case Cancelled => CancelledAt
    case EnRoute => EnRouteAt
    case Working => StartedAt
    case Completed => CompletedAt
    case Paid => SettledBySettlement
    case _ => NoMilestone
  }

  /** Every target a move can reach has its own milestone; distinct targets stamp distinct fields. */
  lemma MilestonesDistinct(s1: Status, t1: Status, s2: Status, t2: Status)
    requires t1 in Targets(s1) && t2 in Targets(s2)
    ensures MilestoneOf(t1) != NoMilestone
    ensures MilestoneOf(t1) == MilestoneOf(t2) <==> t1 == t2
  {
  }

  /** `_status_label`: underscores become spaces, then title case. */
  function StatusLabel(status: string): (shown: string)
    ensures |shown| == |status|
    ensures forall i :: 0 <= i < |shown| ==> shown[i] != '_'
    ensures forall i :: 0 <= i < |status| ==>
      shown[i] == (if status[i] == '_' then ' '
                   else if i > 0 && IsCased(status[i - 1]) then LowerChar(status[i])
                   else UpperChar(status[i]))
  {
    var spaced := ReplaceChar(status, '_', ' ');
    assert forall i :: 0 <= i < |spaced| ==> spaced[i] != '_';
    TitleNoUnderscore(spaced, false);
    Title(spaced)
  }

  /** The label shown for a booking on its way to the farm. */
  lemma StatusLabelEnRoute()
    ensures StatusLabel("en_route") == "En Route"
  {
    var status := "en_route";
    assert status == ['e', 'n', '_', 'r', 'o', 'u', 't', 'e'];
    var shown := StatusLabel(status);
    assert shown == ['E', 'n', ' ', 'R', 'o', 'u', 't', 'e'];
  }

  lemma {:induction false} TitleNoUnderscore(s: string, prevCased: bool)
    requires forall i :: 0 <= i < |s| ==> s[i] != '_'
    ensures forall i :: 0 <= i < |s| ==> TitleFrom(s, prevCased)[i] != '_'
    decreases |s|
  {
    if s != [] {
      TitleNoUnderscore(s[1..], IsCased(s[0]));
      var t := TitleFrom(s, prevCased);
      forall i | 0 <= i < |s| ensures t[i] != '_' {
        if i > 0 {
          assert t[i] == TitleFrom(s[1..], IsCased(s[0]))[i - 1];
        }
      }
    }
  }
}
