/** The registry of retrieval degradations, its gauge, and the history they stand for. */
module RetrievalHealth {
  import opened Options
  import opened Seqs

  datatype Severity = Ok | Warning | Critical

  datatype Reason = Healthy | VectorBackendDown | HashingEmbedder | EmbeddingDimMismatch | SearchTruncated

  datatype Report = Report(source: string, reasons: seq<Reason>, detail: string)

  /** When a reason was last reported, and with what detail. */
  datatype Record = Record(at: real, detail: string)

  datatype Event = Reported(report: Report, at: real) | Cleared

  /** None for a reason that carries no severity of its own. */
  function SeverityFor(reason: Reason): Option<Severity> {
    match reason
    case Healthy => None
    case SearchTruncated => Some(Warning)
    case _ => Some(Critical)
  }

  function Level(s: Severity): nat {
    match s
    case Ok => 0
    case Warning => 1
    case Critical => 2
  }

  /** What one reason adds to an overall severity. */
  function Weight(reason: Reason): nat {
    Level(SeverityFor(reason).Or(Some(Ok)).value)
  }

  function SeverityOf(reasons: set<Reason>): Severity {
    if exists r | r in reasons :: SeverityFor(r) == Some(Critical) then Critical
    else if exists r | r in reasons :: SeverityFor(r) == Some(Warning) then Warning
    else Ok
  }

  /** The overall severity is the maximum of the reasons' own. */
  lemma SeverityIsMaximum(reasons: set<Reason>)
    ensures forall r :: r in reasons ==> Weight(r) <= Level(SeverityOf(reasons))
    ensures SeverityOf(reasons) == Ok || exists r :: r in reasons && Weight(r) == Level(SeverityOf(reasons))
  {
    if r :| r in reasons && SeverityFor(r) == Some(Critical) {
      assert Weight(r) == Level(SeverityOf(reasons));
    } else if r :| r in reasons && SeverityFor(r) == Some(Warning) {
      assert Weight(r) == Level(SeverityOf(reasons));
    }
  }

  /** Truncation alone warns, any other degradation is critical, and `healthy` adds nothing. */
  lemma SeverityLevels(reasons: set<Reason>)
    ensures SeverityOf(reasons) == Ok <==> reasons <= {Healthy}
    ensures SeverityOf(reasons) == Warning <==> SearchTruncated in reasons && reasons <= {Healthy, SearchTruncated}
  {
    forall r | r in reasons ensures SeverityFor(r) == Some(Critical) <==> r !in {Healthy, SearchTruncated} {
      assert r == Healthy || SeverityFor(r).Some?;
    }
    if SearchTruncated in reasons { assert SeverityFor(SearchTruncated) == Some(Warning); }
  }

  /** The reasons a source answers for: its clean run clears them. */
  function Governed(source: string): set<Reason> {
    if source == "sqlite" then {HashingEmbedder, EmbeddingDimMismatch, SearchTruncated}
    else if source == "vector" || source == "fallback" then {VectorBackendDown, HashingEmbedder}
    else {}
  }

  function Active(report: Report): set<Reason> {
    set r | r in report.reasons
  }

  /** The reasons a report's run found absent. */
  function Clears(rep: Report): set<Reason> {
    Governed(rep.source) - Active(rep)
  }

  type Registry = map<Reason, Record>

  function After(registry: Registry, e: Event): Registry {
    match e
    case Cleared => map[]
    case Reported(rep, at) =>
      map r | r in registry.Keys + Active(rep) && r !in Clears(rep) ::
        if r in Active(rep) then Record(at, rep.detail) else registry[r]
  }

  function AfterAll(events: seq<Event>): Registry {
    if events == [] then map[] else After(AfterAll(events[..|events| - 1]), events[|events| - 1])
  }

  // ----------------------------------------------------------------- the history

  predicate Lists(e: Event, r: Reason) {
    e.Reported? && r in e.report.reasons
  }

  /** Says something about the reason: lists it, answers for it, or clears everything. */
  predicate Concerns(e: Event, r: Reason) {
    e.Cleared? || r in e.report.reasons || r in Governed(e.report.source)
  }

  /** The latest event that concerns the reason; -1 if none does. */
  function Latest(events: seq<Event>, r: Reason): (i: int)
    ensures -1 <= i < |events|
    ensures i >= 0 ==> Concerns(events[i], r)
    ensures forall j | i < j < |events| :: !Concerns(events[j], r)
  {
    if events == [] then -1
    else
      var n := |events| - 1;
      if Concerns(events[n], r) then n else
        assert forall j | 0 <= j < n :: events[j] == events[..n][j];
        Latest(events[..n], r)
  }

  /** Main result: a reason is registered exactly when the latest event that concerns it
      lists it, with that report's time and detail. */
  lemma {:induction false} RegistryIsHistory(events: seq<Event>, r: Reason)
    ensures var i := Latest(events, r);
      && (r in AfterAll(events) <==> i >= 0 && Lists(events[i], r))
      && (r in AfterAll(events) ==> AfterAll(events)[r] == Record(events[i].at, events[i].report.detail))
  {
    if events != [] {
      var n := |events| - 1;
      RegistryIsHistory(events[..n], r);
      RegistryStep(AfterAll(events[..n]), events[n], r);
      hide After, Governed, Concerns, Lists;
    }
  }

  lemma RegistryStep(registry: Registry, e: Event, r: Reason)
    ensures r in After(registry, e) <==> Lists(e, r) || (!Concerns(e, r) && r in registry)
    ensures Lists(e, r) ==> Concerns(e, r) && After(registry, e)[r] == Record(e.at, e.report.detail)
    ensures !Concerns(e, r) && r in registry ==> After(registry, e)[r] == registry[r]
  {
    hide Governed;
  }

  /** A clean run clears exactly what its source can judge; the rest stays as it was. */
  lemma CleanRun(registry: Registry, source: string, detail: string, at: real, r: Reason)
    ensures var after := After(registry, Reported(Report(source, [], detail), at));
      && (r in after ==> r in registry && after[r] == registry[r])
      && (r in after <==>
            && r in registry
            && (source == "sqlite" ==> r == Healthy || r == VectorBackendDown)
            && (source == "vector" || source == "fallback" ==> r != VectorBackendDown && r != HashingEmbedder))
  {
  }

  // ------------------------------------------------------------------ the service

  datatype Entry = Entry(reason: Reason, severity: Severity, detail: string, age: real)

  datatype Snapshot = Snapshot(degraded: bool, severity: Severity, reasons: seq<Entry>)

  function Fresh(registry: Registry, now: real, ttl: real): set<Reason> {
    set r | r in registry && now - registry[r].at <= ttl
  }

  function Shown(reason: Reason): Severity {
    SeverityFor(reason).Or(Some(Warning)).value
  }

  function ReasonsOf(entries: seq<Entry>): set<Reason> {
    set e | e in entries :: e.reason
  }

  ghost predicate NoRepeats(entries: seq<Entry>) {
    forall i, j | 0 <= i < j < |entries| :: entries[i].reason != entries[j].reason
  }

  ghost predicate Agrees(gauge: map<Reason, bool>, registry: Registry) {
    forall r: Reason :: (r in gauge && gauge[r]) <==> r in registry
  }

  lemma StoredThenPopped(registry: Registry, rep: Report, at: real)
    ensures (registry + map r | r in Active(rep) :: Record(at, rep.detail)) - Clears(rep)
         == After(registry, Reported(rep, at))
  {
    hide Governed, Active;
  }

  class Health {
    var registry: Registry
    var gauge: map<Reason, bool>
    var current: Option<Report>
    ghost var events: seq<Event>

    /** The registry is its history; the gauge is 1 exactly on registered reasons. */
    ghost predicate Valid()
      reads this
    {
      && registry == AfterAll(events)
      && Agrees(gauge, registry)
    }

    constructor ()
      ensures Valid() && events == []
    {
      registry, gauge, current, events := map[], map[], None, [];
    }

    method SetGauge(reasons: set<Reason>, active: bool)
      modifies this`gauge
      ensures forall r: Reason :: r in reasons ==> r in gauge && gauge[r] == active
      ensures forall r: Reason :: r !in reasons ==> (r in gauge <==> r in old(gauge))
      ensures forall r: Reason :: r !in reasons && r in gauge ==> gauge[r] == old(gauge)[r]
    {
      var todo := reasons;
      while todo != {}
        invariant todo <= reasons
        invariant forall r: Reason :: r in reasons - todo ==> r in gauge && gauge[r] == active
        invariant forall r: Reason :: r !in reasons ==> (r in gauge <==> r in old(gauge))
        invariant forall r: Reason :: r !in reasons && r in gauge ==> gauge[r] == old(gauge)[r]
        decreases todo
      {
        var r :| r in todo;
        gauge := gauge[r := active];
        todo := todo - {r};
      }
    }

    method StoreActive(active: set<Reason>, now: real, detail: string)
      modifies this`registry
      ensures registry == old(registry) + map r | r in active :: Record(now, detail)
    {
      var todo := active;
      while todo != {}
        invariant todo <= active
        invariant registry == old(registry) + map r | r in active - todo :: Record(now, detail)
        decreases todo
      {
        var r :| r in todo;
        registry := registry[r := Record(now, detail)];
        todo := todo - {r};
      }
    }

    method Note(rep: Report, now: real)
      requires Valid()
      modifies this
      ensures Valid() && current == Some(rep) && events == old(events) + [Reported(rep, now)]
    {
      current := Some(rep);
      var active := Active(rep);
      var cleared := Clears(rep);
      StoredThenPopped(registry, rep, now);
      StoreActive(active, now, rep.detail);
      registry := registry - cleared;
      SetGauge(active, true);
      SetGauge(cleared, false);
      ghost var e := Reported(rep, now);
      assert (events + [e])[..|events|] == events;
      events := events + [e];
    }

    method Reset()
      requires Valid()
      modifies this
      ensures Valid() && current == None && registry == map[] && events == old(events) + [Cleared]
    {
      var toClear := registry.Keys;
      registry := map[];
      SetGauge(toClear, false);
      current := None;
      assert (events + [Cleared])[..|events|] == events;
      events := events + [Cleared];
    }

    /** Degradations within the time to live, then the probes' reasons not already there. */
    method TakeSnapshot(now: real, ttl: real, extra: seq<(Reason, string)>) returns (s: Snapshot)
      ensures ReasonsOf(s.reasons) == Fresh(registry, now, ttl) + (set x | x in extra :: x.0)
      ensures NoRepeats(s.reasons)
      ensures forall e :: e in s.reasons ==> e.severity == Shown(e.reason)
      ensures forall e :: e in s.reasons && e.reason in Fresh(registry, now, ttl) ==>
        e.detail == registry[e.reason].detail && e.age == now - registry[e.reason].at
      ensures forall e :: e in s.reasons && e.reason !in Fresh(registry, now, ttl) ==>
        e.age == 0.0 && (e.reason, e.detail) in extra
      ensures forall r :: r in registry ==>
        if now - registry[r].at <= ttl then r in ReasonsOf(s.reasons)
        else r in ReasonsOf(s.reasons) ==> exists x :: x in extra && x.0 == r
      ensures forall e :: e in s.reasons ==>
        || (e.reason in registry && e.detail == registry[e.reason].detail && e.age == now - registry[e.reason].at <= ttl)
        || (e.age == 0.0 && (e.reason, e.detail) in extra)
      ensures s.degraded <==> s.reasons != []
      ensures s.severity == SeverityOf(Fresh(registry, now, ttl) + (set x | x in extra :: x.0))
      ensures s.degraded && s.severity == Ok <==> ReasonsOf(s.reasons) == {Healthy}
    {
      var reasons: seq<Entry> := [];
      var recent := Fresh(registry, now, ttl);
      var todo := recent;
      while todo != {}
        invariant todo <= recent && ReasonsOf(reasons) == recent - todo && NoRepeats(reasons)
        invariant forall e :: e in reasons ==> e.reason in recent && e.severity == Shown(e.reason)
        invariant forall e :: e in reasons && e.reason in recent ==>
          e.detail == registry[e.reason].detail && e.age == now - registry[e.reason].at
        decreases todo
      {
        var r :| r in todo;
        var entry := Entry(r, Shown(r), registry[r].detail, now - registry[r].at);
        OneMoreReason(reasons, entry);
        reasons := reasons + [entry];
        todo := todo - {r};
      }
      var seen := recent;
      var i := 0;
      while i < |extra|
        invariant 0 <= i <= |extra| && seen == recent + (set x | x in extra[..i] :: x.0)
        invariant ReasonsOf(reasons) == seen && NoRepeats(reasons)
        invariant forall e :: e in reasons ==> e.severity == Shown(e.reason)
        invariant forall e :: e in reasons && e.reason in recent ==>
          e.detail == registry[e.reason].detail && e.age == now - registry[e.reason].at
        invariant forall e :: e in reasons && e.reason !in recent ==> e.age == 0.0 && (e.reason, e.detail) in extra
      {
        var (reason, detail) := extra[i];
        TakeOneMore(extra, i);
        assert (reason, detail) in extra;
        if reason !in seen {
          var entry := Entry(reason, Shown(reason), detail, 0.0);
          OneMoreReason(reasons, entry);
          reasons := reasons + [entry];
          seen := seen + {reason};
        }
        i := i + 1;
      }
      TakeAll(extra);
      NothingListed(reasons);
      DegradedButOk(seen);
      hide SeverityOf, ReasonsOf, NoRepeats;
      s := Snapshot(reasons != [], SeverityOf(seen), reasons);
    }
  }

  lemma OneMoreReason(entries: seq<Entry>, e: Entry)
    ensures ReasonsOf(entries + [e]) == ReasonsOf(entries) + {e.reason}
    ensures NoRepeats(entries) && e.reason !in ReasonsOf(entries) ==> NoRepeats(entries + [e])
  {
    forall r | r in ReasonsOf(entries) + {e.reason} ensures r in ReasonsOf(entries + [e]) {
      if r in ReasonsOf(entries) {
        var x :| x in entries && x.reason == r;
        assert x in entries + [e];
      } else {
        assert e in entries + [e];
      }
    }
    forall i | 0 <= i < |entries| ensures entries[i].reason in ReasonsOf(entries) {
      assert entries[i] in entries;
    }
  }

  lemma NothingListed(entries: seq<Entry>)
    ensures ReasonsOf(entries) == {} <==> entries == []
  {
    if entries != [] {
      assert entries[0] in entries;
      assert entries[0].reason in ReasonsOf(entries);
    }
  }

  lemma DegradedButOk(reasons: set<Reason>)
    ensures reasons != {} && SeverityOf(reasons) == Ok <==> reasons == {Healthy}
  {
    if reasons != {} && SeverityOf(reasons) == Ok {
      forall r | r in reasons ensures r == Healthy {
        assert SeverityFor(r) != Some(Critical) && SeverityFor(r) != Some(Warning);
      }
      var r :| r in reasons;
    }
  }

  /** A report of `healthy` alone is all a snapshot within the time to live then holds,
      whatever healthy or clean reports came before. */
  lemma {:induction false} HealthyReportHolds(events: seq<Event>, rep: Report, at: real, now: real, ttl: real)
    requires AfterAll(events).Keys <= {Healthy} && Active(rep) == {Healthy} && now - at <= ttl
    ensures Fresh(AfterAll(events + [Reported(rep, at)]), now, ttl) == {Healthy}
  {
    assert (events + [Reported(rep, at)])[..|events|] == events;
    assert Healthy in Active(rep);
    assert forall r | r in After(AfterAll(events), Reported(rep, at)) :: r in AfterAll(events).Keys + Active(rep);
  }

  // ------------------------------------------------------------- two reports at once

  function GaugeAfter(gauge: map<Reason, bool>, rep: Report): map<Reason, bool> {
    map r | r in gauge.Keys + Active(rep) + Clears(rep) ::
      if r in Active(rep) then true else if r in Clears(rep) then false else gauge[r]
  }

  /** What the two orders make of one reason. */
  lemma Overtaken(registry: Registry, gauge: map<Reason, bool>, a: Report, b: Report, r: Reason, t: real, u: real)
    requires Agrees(gauge, registry)
    ensures var g := GaugeAfter(GaugeAfter(gauge, b), a);
      ((r in g && g[r]) <==> r in After(After(registry, Reported(a, t)), Reported(b, u)))
      <==> !(r in Active(a) && r in Clears(b)) && !(r in Active(b) && r in Clears(a))
  {
    hide Governed;
  }

  /** The gauge is set after the lock is released, so a report that takes the lock second may
      set the gauge first. The gauge is then right exactly when neither report lists a reason
      the other clears. */
  lemma OvertakenGaugeIff(registry: Registry, gauge: map<Reason, bool>, a: Report, b: Report, t: real, u: real)
    requires Agrees(gauge, registry)
    ensures Agrees(GaugeAfter(GaugeAfter(gauge, b), a), After(After(registry, Reported(a, t)), Reported(b, u)))
      <==> Active(a) !! Clears(b) && Active(b) !! Clears(a)
  {
    var g := GaugeAfter(GaugeAfter(gauge, b), a);
    var end := After(After(registry, Reported(a, t)), Reported(b, u));
    forall r: Reason
      ensures ((r in g && g[r]) <==> r in end)
          <==> !(r in Active(a) && r in Clears(b)) && !(r in Active(b) && r in Clears(a))
    {
      Overtaken(registry, gauge, a, b, r, t, u);
    }
    hide *;
    if r :| r in Active(a) && r in Clears(b) {
    } else if r :| r in Active(b) && r in Clears(a) {
    }
  }

  /** A clean report that overtakes a bad one leaves the gauge 1 for a reason no longer
      registered, and the other way round 0 for one that is. */
  lemma OvertakenGaugeSticks(registry: Registry, gauge: map<Reason, bool>, bad: Report, clean: Report, r: Reason,
                             t: real, u: real)
    requires Agrees(gauge, registry) && r in Active(bad) && r in Clears(clean)
    ensures r !in After(After(registry, Reported(bad, t)), Reported(clean, u))
    ensures var g := GaugeAfter(GaugeAfter(gauge, clean), bad); r in g && g[r]
    ensures r in After(After(registry, Reported(clean, t)), Reported(bad, u))
    ensures var g := GaugeAfter(GaugeAfter(gauge, bad), clean); r in g && !g[r]
  {
    hide Governed;
  }
}
