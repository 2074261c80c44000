/** The life of the per-type informers (`pkg/util/informermanager/informermanager.go`) as steps on one state. */
module InformerLifecycle {
  import opened Wrappers

  type GVK = string
  type FtcName = string
  type Generator = nat
  type InformerId = nat
  type Registration = nat

  datatype FTC = FTC(name: FtcName, gvk: GVK, content: int)

  /** One call of an FTC update handler: the previous object and the new one, nil being None. */
  datatype HandlerCall = HandlerCall(before: Option<FTC>, after: Option<FTC>)

  /** A running informer: the FTC it was started for and the type it watches. */
  datatype Running = Running(owner: FtcName, gvk: GVK)

  /** An event handler that an informer is calling. */
  datatype Live = Live(informer: InformerId, generator: Generator)

  datatype State = State(
    gvkMapping: map<FtcName, GVK>,
    informers: map<FtcName, InformerId>,
    cancelFuncs: map<FtcName, InformerId>,
    registrations: map<FtcName, map<Generator, Registration>>,
    lastApplied: map<FtcName, map<Generator, FTC>>,
    lastObserved: map<FtcName, FTC>,
    // the rest of the process
    running: map<InformerId, Running>,        // informers started and not cancelled
    live: map<Registration, Live>,            // handlers registered with a running informer
    nextId: nat,
    history: map<FtcName, seq<HandlerCall>>)  // what each FTC update handler has seen

  function Empty(): State {
    State(map[], map[], map[], map[], map[], map[], map[], map[], 0, map[])
  }

  /** What one pass meets outside the manager. */
  datatype World = World(
    synced: bool,
    predicateHolds: (Generator, Option<FTC>, FTC) -> bool,
    hasHandler: (Generator, FTC) -> bool,
    removeFails: Generator -> bool,
    addFails: Generator -> bool)

  function HistoryOf(s: State, name: FtcName): seq<HandlerCall> {
    if name in s.history then s.history[name] else []
  }

  function Observed(s: State, name: FtcName): Option<FTC> {
    if name in s.lastObserved then Some(s.lastObserved[name]) else None
  }

  // ---------- Registering the event handlers of one FTC ----------

  datatype Handlers = Handlers(registrations: map<Generator, Registration>, lastApplied: map<Generator, FTC>,
      live: map<Registration, Live>, nextId: nat)

  datatype Registered = Registered(handlers: Handlers, ok: bool)

  function RegisterOne(h: Handlers, informer: InformerId, ftc: FTC, g: Generator, w: World): Registered {
    var last := if g in h.lastApplied then Some(h.lastApplied[g]) else None;
    if !w.predicateHolds(g, last, ftc) then
      Registered(h.(lastApplied := h.lastApplied[g := ftc]), true)
    else if g in h.registrations && w.removeFails(g) then
      Registered(h, false)
    else
      var removed := if g in h.registrations
                     then h.(live := h.live - {h.registrations[g]}, registrations := h.registrations - {g}) else h;
      if w.hasHandler(g, ftc) then
        if w.addFails(g) then Registered(removed.(lastApplied := removed.lastApplied - {g}), false)
        else
          Registered(Handlers(removed.registrations[g := removed.nextId], removed.lastApplied[g := ftc],
            removed.live[removed.nextId := Live(informer, g)], removed.nextId + 1), true)
      else Registered(removed.(lastApplied := removed.lastApplied[g := ftc]), true)
  }

  function RegisterAll(h: Handlers, informer: InformerId, ftc: FTC, generators: seq<Generator>, w: World): Registered
    decreases |generators|
  {
    if generators == [] then Registered(h, true)
    else
      var r := RegisterOne(h, informer, ftc, generators[0], w);
      if r.ok then RegisterAll(r.handlers, informer, ftc, generators[1..], w) else r
  }

  // ---------- The two passes ----------

  function Cancel(s: State, name: FtcName): State {
    var cancelled := if name in s.cancelFuncs then {s.cancelFuncs[name]} else {};
    s.(running := s.running - cancelled,
       live := map r | r in s.live && s.live[r].informer !in cancelled :: s.live[r])
  }

  function Unmap(s: State, name: FtcName): State {
    s.(gvkMapping := s.gvkMapping - {name},
       informers := s.informers - {name},
       cancelFuncs := s.cancelFuncs - {name},
       registrations := s.registrations - {name})
  }

  function Forget(s: State, name: FtcName): State {
    s.(history := if name in s.lastObserved
                  then s.history[name := HistoryOf(s, name) + [HandlerCall(Some(s.lastObserved[name]), None)]]
                      else s.history,
       lastObserved := s.lastObserved - {name})
  }

  function ProcessDeletion(s: State, name: FtcName): State {
    Forget(Unmap(Cancel(s, name), name), name)
  }

  function StartInformer(s: State, ftc: FTC): State {
    s.(gvkMapping := s.gvkMapping[ftc.name := ftc.gvk],
       informers := s.informers[ftc.name := s.nextId],
       cancelFuncs := s.cancelFuncs[ftc.name := s.nextId],
       registrations := s.registrations[ftc.name := map[]],
       lastApplied := s.lastApplied[ftc.name := map[]],
       running := s.running[s.nextId := Running(ftc.name, ftc.gvk)],
       nextId := s.nextId + 1)
  }

  function Observe(s: State, ftc: FTC): State {
    s.(history := s.history[ftc.name := HistoryOf(s, ftc.name) + [HandlerCall(Observed(s, ftc.name), Some(ftc))]],
       lastObserved := s.lastObserved[ftc.name := ftc])
  }

  function Register(s: State, ftc: FTC, generators: seq<Generator>, w: World): State
    requires ftc.name in s.informers && ftc.name in s.registrations && ftc.name in s.lastApplied
  {
    var r := RegisterAll(Handlers(s.registrations[ftc.name], s.lastApplied[ftc.name], s.live, s.nextId),
        s.informers[ftc.name], ftc, generators, w);
    s.(registrations := s.registrations[ftc.name := r.handlers.registrations],
       lastApplied := s.lastApplied[ftc.name := r.handlers.lastApplied],
       live := r.handlers.live, nextId := r.handlers.nextId)
  }

  /** Whether every handler could be registered. */
  predicate Registers(s: State, ftc: FTC, generators: seq<Generator>, w: World)
    requires ftc.name in s.informers && ftc.name in s.registrations && ftc.name in s.lastApplied
  {
    RegisterAll(Handlers(s.registrations[ftc.name], s.lastApplied[ftc.name], s.live, s.nextId), s.informers[ftc.name],
        ftc, generators, w).ok
  }

  /** Registering fails only if the informer refuses a handler or its removal. */
  lemma {:induction false} RegistersUnlessRefused(h: Handlers, informer: InformerId, ftc: FTC,
                                                  generators: seq<Generator>, w: World)
    requires forall g :: g in generators ==> !w.removeFails(g) && !w.addFails(g)
    ensures RegisterAll(h, informer, ftc, generators, w).ok
    decreases |generators|
  {
    if generators != [] {
      assert generators[0] in generators;
      RegistersUnlessRefused(RegisterOne(h, informer, ftc, generators[0], w).handlers, informer, ftc, generators[1..],
          w);
    }
  }

  /** One handler: with the generator's predicate not holding, only the object last applied changes. With it holding, an
      earlier registration is given up and a new one made exactly if there is a handler for the object; it fails if the
      informer refuses either. */
  lemma RegisterOneMeans(h: Handlers, informer: InformerId, ftc: FTC, g: Generator, w: World)
    ensures var r := RegisterOne(h, informer, ftc, g, w);
            var due := w.predicateHolds(g, if g in h.lastApplied then Some(h.lastApplied[g]) else None, ftc);
            && (r.ok <==> due ==>
                  !(g in h.registrations && w.removeFails(g)) && !(w.hasHandler(g, ftc) && w.addFails(g)))
            && (r.ok ==> g in r.handlers.lastApplied && r.handlers.lastApplied[g] == ftc)
            && (!due ==> r.handlers == h.(lastApplied := h.lastApplied[g := ftc]))
            && (due && r.ok ==>
                  && (g in r.handlers.registrations <==> w.hasHandler(g, ftc))
                  && (w.hasHandler(g, ftc) ==>
                        && r.handlers.registrations[g] == h.nextId && h.nextId in r.handlers.live
                        && r.handlers.live[h.nextId] == Live(informer, g))
                  && (g in h.registrations && h.registrations[g] != h.nextId ==>
                        h.registrations[g] !in r.handlers.live))
    ensures var h' := RegisterOne(h, informer, ftc, g, w).handlers;
            forall o :: o != g ==>
              && (o in h'.registrations <==> o in h.registrations)
              && (o in h.registrations ==> h'.registrations[o] == h.registrations[o])
              && (o in h'.lastApplied <==> o in h.lastApplied)
              && (o in h.lastApplied ==> h'.lastApplied[o] == h.lastApplied[o])
  {}

  /** After all handlers of an FTC were registered: a generator whose predicate held has a registration exactly if it
      has a handler for the FTC, any other keeps what it had, and the FTC is what each of them was last given. */
  lemma {:induction false} RegisteredAsDue(h: Handlers, informer: InformerId, ftc: FTC, generators: seq<Generator>,
                                           w: World, g: Generator)
    requires forall i, j :: 0 <= i < j < |generators| ==> generators[i] != generators[j]
    requires RegisterAll(h, informer, ftc, generators, w).ok
    ensures var h' := RegisterAll(h, informer, ftc, generators, w).handlers;
            if g !in generators then
              && (g in h'.registrations <==> g in h.registrations)
              && (g in h.registrations ==> h'.registrations[g] == h.registrations[g])
              && (g in h'.lastApplied <==> g in h.lastApplied)
              && (g in h.lastApplied ==> h'.lastApplied[g] == h.lastApplied[g])
            else
              && g in h'.lastApplied && h'.lastApplied[g] == ftc
              && if w.predicateHolds(g, if g in h.lastApplied then Some(h.lastApplied[g]) else None, ftc)
                 then g in h'.registrations <==> w.hasHandler(g, ftc)
                 else
                   && (g in h'.registrations <==> g in h.registrations)
                   && (g in h.registrations ==> h'.registrations[g] == h.registrations[g])
    decreases |generators|
  {
    if generators != [] {
      var first, rest := generators[0], generators[1..];
      assert generators == [first] + rest;
      assert first !in rest;
      RegisterOneMeans(h, informer, ftc, first, w);
      RegisteredAsDue(RegisterOne(h, informer, ftc, first, w).handlers, informer, ftc, rest, w, g);
    }
  }

  predicate Taken(s: State, gvk: GVK) {
    exists n :: n in s.gvkMapping && s.gvkMapping[n] == gvk
  }

  function ProcessFTC(s: State, ftc: FTC, generators: seq<Generator>, w: World): State
    requires Maps(s)
  {
    if ftc.name in s.gvkMapping && s.gvkMapping[ftc.name] != ftc.gvk then ProcessDeletion(s, ftc.name)
    else if ftc.name !in s.gvkMapping && Taken(s, ftc.gvk) then s
    else
      var started := if ftc.name in s.gvkMapping then s else StartInformer(s, ftc);
      var observed := Observe(started, ftc);
      if !w.synced then observed else Register(observed, ftc, generators, w)
  }

  // ---------- The invariant ----------

  /** The parallel maps have one domain. lastApplied is not cleared on deletion, so it may have more. */
  predicate Maps(s: State) {
    && s.informers.Keys == s.gvkMapping.Keys && s.cancelFuncs.Keys == s.gvkMapping.Keys
    && s.registrations.Keys == s.gvkMapping.Keys && s.lastObserved.Keys == s.gvkMapping.Keys
    && s.gvkMapping.Keys <= s.lastApplied.Keys
  }

  /** No two FTCs share a source type. */
  predicate OwnType(s: State, m: FtcName, n: FtcName) {
    m in s.gvkMapping && n in s.gvkMapping && s.gvkMapping[m] == s.gvkMapping[n] ==> m == n
  }

  /** A mapped FTC has a running informer for its type, and the means to cancel it. */
  predicate MappedRuns(s: State, n: FtcName) {
    n in s.gvkMapping ==>
      n in s.informers && s.informers[n] in s.running && s.running[s.informers[n]] == Running(n, s.gvkMapping[n])
  }

  /** A running informer is a mapped one. */
  predicate RunningMapped(s: State, i: InformerId) {
    i in s.running ==> i < s.nextId && s.running[i].owner in s.informers && s.informers[s.running[i].owner] == i
  }

  ghost predicate InformersRight(s: State) {
    && s.cancelFuncs == s.informers && s.informers.Keys == s.gvkMapping.Keys
    && (forall m, n :: OwnType(s, m, n)) && (forall n :: MappedRuns(s, n)) && (forall i :: RunningMapped(s, i))
  }

  /** A recorded registration is a live handler of the FTC's informer. */
  predicate RecordedLive(s: State, n: FtcName, g: Generator) {
    n in s.registrations && g in s.registrations[n] ==>
      n in s.informers && s.registrations[n][g] in s.live && s.live[s.registrations[n][g]] == Live(s.informers[n], g)
  }

  /** A live handler is recorded, under the FTC its informer was started for. */
  predicate LiveRecorded(s: State, r: Registration) {
    r in s.live ==>
      && r < s.nextId && s.live[r].informer in s.running
      && var n := s.running[s.live[r].informer].owner;
         && n in s.registrations && s.live[r].generator in s.registrations[n]
         && s.registrations[n][s.live[r].generator] == r
  }

  ghost predicate RegistrationsRight(s: State) {
    (forall n, g :: RecordedLive(s, n, g)) && (forall r :: LiveRecorded(s, r))
  }

  /** Each call starts from where the previous one ended: nil, object, object, nil, object, ... */
  predicate Chained(h: seq<HandlerCall>) {
    h == [] || (h[|h| - 1].before == Latest(h[..|h| - 1]) && Chained(h[..|h| - 1]))
  }

  function Latest(h: seq<HandlerCall>): Option<FTC> {
    if h == [] then None else h[|h| - 1].after
  }

  /** The objects seen since the FTC last came into being. */
  function Incarnation(h: seq<HandlerCall>): set<FTC> {
    if h == [] || Latest(h).None? then {}
    else {Latest(h).value} + if h[|h| - 1].before.None? then {} else Incarnation(h[..|h| - 1])
  }

  ghost predicate HistoryRight(s: State, n: FtcName)
    requires Maps(s)
  {
    && Chained(HistoryOf(s, n))
    && Latest(HistoryOf(s, n)) == Observed(s, n)
    && (n in s.gvkMapping ==> s.lastObserved[n].name == n && s.lastObserved[n].gvk == s.gvkMapping[n])
    && (n in s.gvkMapping ==> forall g :: g in s.lastApplied[n] ==> s.lastApplied[n][g] in Incarnation(HistoryOf(s, n)))
  }

  ghost predicate Inv(s: State) {
    Maps(s) && InformersRight(s) && RegistrationsRight(s) && forall n :: HistoryRight(s, n)
  }

  // ---------- Preservation ----------

  lemma ChainedSnoc(h: seq<HandlerCall>, call: HandlerCall)
    requires Chained(h) && call.before == Latest(h)
    ensures Chained(h + [call]) && Latest(h + [call]) == call.after
    ensures call.after.Some? ==> Incarnation(h + [call]) == {call.after.value} + if call.before.None? then {}
        else Incarnation(h)
  {
    assert (h + [call])[..|h|] == h;
  }

  lemma DeletionInformers(s: State, name: FtcName)
    requires InformersRight(s)
    ensures InformersRight(ProcessDeletion(s, name))
  {
    var s' := ProcessDeletion(s, name);
    assert MappedRuns(s, name);
    forall m, n ensures OwnType(s', m, n) { assert OwnType(s, m, n); }
    forall n ensures MappedRuns(s', n) { assert MappedRuns(s, n); }
    forall i ensures RunningMapped(s', i) { assert RunningMapped(s, i); }
  }

  lemma DeletionRegistrations(s: State, name: FtcName)
    requires InformersRight(s) && RegistrationsRight(s)
    ensures RegistrationsRight(ProcessDeletion(s, name))
  {
    var s' := ProcessDeletion(s, name);
    assert MappedRuns(s, name);
    forall r ensures LiveRecorded(s', r) {
      assert LiveRecorded(s, r);
      if r in s.live { assert RunningMapped(s, s.live[r].informer); }
    }
    forall n, g ensures RecordedLive(s', n, g) {
      assert RecordedLive(s, n, g) && MappedRuns(s, n);
    }
  }

  lemma DeletionInv(s: State, name: FtcName)
    requires Inv(s)
    ensures Inv(ProcessDeletion(s, name))
  {
    var s' := ProcessDeletion(s, name);
    DeletionInformers(s, name);
    DeletionRegistrations(s, name);
    forall n ensures HistoryRight(s', n) {
      assert HistoryRight(s, n);
      if n == name && name in s.lastObserved {
        ChainedSnoc(HistoryOf(s, n), HandlerCall(Some(s.lastObserved[name]), None));
      }
    }
  }

  lemma StartInformers(s: State, ftc: FTC)
    requires InformersRight(s) && ftc.name !in s.gvkMapping && !Taken(s, ftc.gvk)
    ensures InformersRight(StartInformer(s, ftc))
  {
    var s' := StartInformer(s, ftc);
    forall m, n ensures OwnType(s', m, n) { assert OwnType(s, m, n); }
    forall n ensures MappedRuns(s', n) {
      assert MappedRuns(s, n);
      if n in s.gvkMapping { assert RunningMapped(s, s.informers[n]); }
    }
    forall i ensures RunningMapped(s', i) { assert RunningMapped(s, i); }
  }

  lemma StartRegistrations(s: State, ftc: FTC)
    requires InformersRight(s) && RegistrationsRight(s) && ftc.name !in s.gvkMapping
    ensures RegistrationsRight(StartInformer(s, ftc))
  {
    var s' := StartInformer(s, ftc);
    forall r ensures LiveRecorded(s', r) {
      assert LiveRecorded(s, r);
      if r in s.live { assert RunningMapped(s, s.live[r].informer); }
    }
    forall n, g ensures RecordedLive(s', n, g) { assert RecordedLive(s, n, g); }
  }

  lemma ObserveKeeps(s: State, ftc: FTC)
    requires InformersRight(s) && RegistrationsRight(s)
    ensures InformersRight(Observe(s, ftc)) && RegistrationsRight(Observe(s, ftc))
  {
    var s' := Observe(s, ftc);
    forall m, n ensures OwnType(s', m, n) { assert OwnType(s, m, n); }
    forall n ensures MappedRuns(s', n) { assert MappedRuns(s, n); }
    forall i ensures RunningMapped(s', i) { assert RunningMapped(s, i); }
    forall r ensures LiveRecorded(s', r) { assert LiveRecorded(s, r); }
    forall n, g ensures RecordedLive(s', n, g) { assert RecordedLive(s, n, g); }
  }

  lemma StartInv(s: State, ftc: FTC)
    requires Inv(s) && ftc.name !in s.gvkMapping && !Taken(s, ftc.gvk)
    ensures Inv(Observe(StartInformer(s, ftc), ftc))
    ensures ftc in Incarnation(HistoryOf(Observe(StartInformer(s, ftc), ftc), ftc.name))
  {
    StartInformers(s, ftc);
    StartRegistrations(s, ftc);
    ObserveKeeps(StartInformer(s, ftc), ftc);
    var s' := Observe(StartInformer(s, ftc), ftc);
    assert HistoryRight(s, ftc.name);
    ChainedSnoc(HistoryOf(s, ftc.name), HandlerCall(None, Some(ftc)));
    forall n ensures HistoryRight(s', n) {
      assert HistoryRight(s, n);
    }
  }

  lemma ObserveInv(s: State, ftc: FTC)
    requires Inv(s) && ftc.name in s.gvkMapping && s.gvkMapping[ftc.name] == ftc.gvk
    ensures Inv(Observe(s, ftc))
    ensures ftc in Incarnation(HistoryOf(Observe(s, ftc), ftc.name))
  {
    var s' := Observe(s, ftc);
    ObserveKeeps(s, ftc);
    assert HistoryRight(s, ftc.name);
    ChainedSnoc(HistoryOf(s, ftc.name), HandlerCall(Observed(s, ftc.name), Some(ftc)));
    forall n ensures HistoryRight(s', n) {
      assert HistoryRight(s, n);
    }
  }

  /** What registering keeps, for the FTC whose informer is `informer`: its registrations are the live handlers of that
      informer, and nothing else live is touched. */
  ghost predicate HandlersRight(h: Handlers, others: map<Registration, Live>, informer: InformerId, seen: set<FTC>) {
    && (forall g :: g in h.registrations ==>
        h.registrations[g] in h.live && h.live[h.registrations[g]] == Live(informer, g))
    && (forall r :: r in h.live && h.live[r].informer == informer ==>
          h.live[r].generator in h.registrations && h.registrations[h.live[r].generator] == r)
    && (forall r :: r in others ==> r in h.live && h.live[r] == others[r] && others[r].informer != informer)
    && (forall r :: r in h.live && h.live[r].informer != informer ==> r in others)
    && (forall r :: r in h.live ==> r < h.nextId)
    && (forall g :: g in h.lastApplied ==> h.lastApplied[g] in seen)
  }

  /** Forgetting the old registration of `g` keeps things right. */
  lemma RemovedRight(h: Handlers, others: map<Registration, Live>, informer: InformerId, seen: set<FTC>, g: Generator)
    requires HandlersRight(h, others, informer, seen) && g in h.registrations
    ensures HandlersRight(h.(live := h.live - {h.registrations[g]}, registrations := h.registrations - {g}), others,
        informer, seen)
  {}

  lemma AddedRight(h: Handlers, others: map<Registration, Live>, informer: InformerId, seen: set<FTC>, ftc: FTC,
                   g: Generator)
    requires HandlersRight(h, others, informer, seen) && g !in h.registrations && ftc in seen
    ensures HandlersRight(Handlers(h.registrations[g := h.nextId], h.lastApplied[g := ftc],
        h.live[h.nextId := Live(informer, g)], h.nextId + 1),
              others, informer, seen)
  {}

  lemma RegisterOneRight(h: Handlers, others: map<Registration, Live>, informer: InformerId, seen: set<FTC>, ftc: FTC,
                         g: Generator, w: World)
    requires HandlersRight(h, others, informer, seen) && ftc in seen
    ensures HandlersRight(RegisterOne(h, informer, ftc, g, w).handlers, others, informer, seen)
    ensures h.nextId <= RegisterOne(h, informer, ftc, g, w).handlers.nextId
  {
    var last := if g in h.lastApplied then Some(h.lastApplied[g]) else None;
    if !w.predicateHolds(g, last, ftc) {
      AppliedRight(h, others, informer, seen, h.lastApplied[g := ftc]);
    } else if !(g in h.registrations && w.removeFails(g)) {
      var removed := if g in h.registrations
                     then h.(live := h.live - {h.registrations[g]}, registrations := h.registrations - {g}) else h;
      if g in h.registrations { RemovedRight(h, others, informer, seen, g); }
      if w.hasHandler(g, ftc) && !w.addFails(g) {
        AddedRight(removed, others, informer, seen, ftc, g);
      } else {
        AppliedRight(removed, others, informer, seen, if w.hasHandler(g, ftc) then removed.lastApplied - {g}
            else removed.lastApplied[g := ftc]);
      }
    }
  }

  lemma AppliedRight(h: Handlers, others: map<Registration, Live>, informer: InformerId, seen: set<FTC>,
                     applied: map<Generator, FTC>)
    requires HandlersRight(h, others, informer, seen) && forall g :: g in applied ==> applied[g] in seen
    ensures HandlersRight(h.(lastApplied := applied), others, informer, seen)
  {}

  lemma {:induction false} RegisterAllRight(h: Handlers, others: map<Registration, Live>, informer: InformerId,
                                            seen: set<FTC>, ftc: FTC, generators: seq<Generator>, w: World)
    requires HandlersRight(h, others, informer, seen) && ftc in seen
    ensures HandlersRight(RegisterAll(h, informer, ftc, generators, w).handlers, others, informer, seen)
    ensures h.nextId <= RegisterAll(h, informer, ftc, generators, w).handlers.nextId
    decreases |generators|
  {
    if generators != [] {
      RegisterOneRight(h, others, informer, seen, ftc, generators[0], w);
      var r := RegisterOne(h, informer, ftc, generators[0], w);
      if r.ok { RegisterAllRight(r.handlers, others, informer, seen, ftc, generators[1..], w); }
    }
  }

  function Others(s: State, n0: FtcName): map<Registration, Live>
    requires n0 in s.informers
  {
    map r | r in s.live && s.live[r].informer != s.informers[n0] :: s.live[r]
  }

  lemma StateHandlersRight(s: State, n0: FtcName)
    requires Inv(s) && n0 in s.gvkMapping
    ensures HandlersRight(Handlers(s.registrations[n0], s.lastApplied[n0], s.live, s.nextId), Others(s, n0),
        s.informers[n0],
              Incarnation(HistoryOf(s, n0)))
  {
    assert HistoryRight(s, n0) && MappedRuns(s, n0);
    forall g | g in s.registrations[n0] ensures RecordedLive(s, n0, g) {}
    forall r | r in s.live ensures LiveRecorded(s, r) {}
  }

  /** Put back into the state, what RegisterAll returns keeps the registrations right. */
  lemma RegisterRegistrations(s: State, ftc: FTC, generators: seq<Generator>, w: World, h: Handlers)
    requires Inv(s) && ftc.name in s.gvkMapping && s.nextId <= h.nextId
    requires h == RegisterAll(Handlers(s.registrations[ftc.name], s.lastApplied[ftc.name], s.live, s.nextId),
        s.informers[ftc.name], ftc, generators, w).handlers
    requires HandlersRight(h, Others(s, ftc.name), s.informers[ftc.name], Incarnation(HistoryOf(s, ftc.name)))
    ensures RegistrationsRight(Register(s, ftc, generators, w)) && InformersRight(Register(s, ftc, generators, w))
  {
    var s', n0 := Register(s, ftc, generators, w), ftc.name;
    assert MappedRuns(s, n0);
    forall r ensures LiveRecorded(s', r) {
      assert LiveRecorded(s, r);
      if r in s'.live && s'.live[r].informer != s.informers[n0] {
        assert r in Others(s, n0);
        assert RunningMapped(s, s.live[r].informer);
      }
    }
    forall n, g ensures RecordedLive(s', n, g) {
      assert RecordedLive(s, n, g) && MappedRuns(s, n);
      if n != n0 && n in s.registrations && g in s.registrations[n] {
        assert s.registrations[n][g] in Others(s, n0);
      }
    }
    forall m, n ensures OwnType(s', m, n) { assert OwnType(s, m, n); }
    forall n ensures MappedRuns(s', n) { assert MappedRuns(s, n); }
    forall i ensures RunningMapped(s', i) { assert RunningMapped(s, i); }
  }

  lemma RegisterInv(s: State, ftc: FTC, generators: seq<Generator>, w: World)
    requires Inv(s) && ftc.name in s.gvkMapping && ftc in Incarnation(HistoryOf(s, ftc.name))
    ensures Inv(Register(s, ftc, generators, w))
  {
    var n0 := ftc.name;
    var h := Handlers(s.registrations[n0], s.lastApplied[n0], s.live, s.nextId);
    StateHandlersRight(s, n0);
    RegisterAllRight(h, Others(s, n0), s.informers[n0], Incarnation(HistoryOf(s, n0)), ftc, generators, w);
    RegisterRegistrations(s, ftc, generators, w, RegisterAll(h, s.informers[n0], ftc, generators, w).handlers);
    forall n ensures HistoryRight(Register(s, ftc, generators, w), n) {
      assert HistoryRight(s, n);
    }
  }

  lemma ProcessInv(s: State, ftc: FTC, generators: seq<Generator>, w: World)
    requires Inv(s)
    ensures Inv(ProcessFTC(s, ftc, generators, w))
  {
    if ftc.name in s.gvkMapping && s.gvkMapping[ftc.name] != ftc.gvk {
      DeletionInv(s, ftc.name);
    } else if !(ftc.name !in s.gvkMapping && Taken(s, ftc.gvk)) {
      if ftc.name in s.gvkMapping {
        ObserveInv(s, ftc);
      } else {
        StartInv(s, ftc);
      }
      var started := if ftc.name in s.gvkMapping then s else StartInformer(s, ftc);
      if w.synced { RegisterInv(Observe(started, ftc), ftc, generators, w); }
    }
  }

  // ---------- Runs ----------

  datatype Event = Seen(ftc: FTC, w: World) | Gone(name: FtcName)

  function Next(s: State, e: Event, generators: seq<Generator>): State
    requires Maps(s)
  {
    match e
    case Seen(ftc, w) => ProcessFTC(s, ftc, generators, w)
    case Gone(name) => ProcessDeletion(s, name)
  }

  lemma NextInv(s: State, e: Event, generators: seq<Generator>)
    requires Inv(s)
    ensures Inv(Next(s, e, generators))
  {
    match e
    case Seen(ftc, w) => ProcessInv(s, ftc, generators, w);
    case Gone(name) => DeletionInv(s, name);
  }

  /** `t` is what some run of FTC events leads to from `s`. */
  ghost predicate Leads(s: State, es: seq<Event>, generators: seq<Generator>, t: State)
    decreases |es|
  {
    Maps(s) && if es == [] then t == s else Leads(Next(s, es[0], generators), es[1..], generators, t)
  }

  lemma {:induction false} RunInv(s: State, es: seq<Event>, generators: seq<Generator>, t: State)
    requires Inv(s) && Leads(s, es, generators, t)
    ensures Inv(t)
    decreases |es|
  {
    if es != [] {
      NextInv(s, es[0], generators);
      RunInv(Next(s, es[0], generators), es[1..], generators, t);
    }
  }

  /** At most one running informer per source type, and none left running unmapped. */
  lemma OneInformerPerType(s: State)
    requires Inv(s)
    ensures forall i, j :: i in s.running && j in s.running && s.running[i].gvk == s.running[j].gvk ==> i == j
    ensures s.running.Keys == s.informers.Values
  {
    forall i, j | i in s.running && j in s.running && s.running[i].gvk == s.running[j].gvk ensures i == j {
      var m, n := s.running[i].owner, s.running[j].owner;
      assert RunningMapped(s, i) && RunningMapped(s, j);
      assert MappedRuns(s, m) && MappedRuns(s, n);
      assert OwnType(s, m, n);
    }
    forall i | i in s.running ensures i in s.informers.Values {
      assert RunningMapped(s, i);
      assert s.informers[s.running[i].owner] == i;
    }
    forall n | n in s.informers ensures s.informers[n] in s.running { assert MappedRuns(s, n); }
  }

  /** At most one live handler per informer and generator, and none on an informer that was cancelled. */
  lemma OneHandlerPerGenerator(s: State)
    requires Inv(s)
    ensures forall r, r' :: r in s.live && r' in s.live && s.live[r] == s.live[r'] ==> r == r'
    ensures forall r :: r in s.live ==> s.live[r].informer in s.running
  {
    forall r, r' | r in s.live && r' in s.live && s.live[r] == s.live[r'] ensures r == r' {
      assert LiveRecorded(s, r) && LiveRecorded(s, r');
    }
    forall r | r in s.live ensures s.live[r].informer in s.running {
      assert LiveRecorded(s, r);
    }
  }

  /** The three guarantees over every sequence of FTC events; every update handler sees a well-formed history. */
  lemma LifecycleSafe(es: seq<Event>, generators: seq<Generator>, t: State)
    requires Leads(Empty(), es, generators, t)
    ensures Maps(t)
    ensures forall i, j :: i in t.running && j in t.running && t.running[i].gvk == t.running[j].gvk ==> i == j
    ensures t.running.Keys == t.informers.Values
    ensures forall r, r' :: r in t.live && r' in t.live && t.live[r] == t.live[r'] ==> r == r'
    ensures forall r :: r in t.live ==> t.live[r].informer in t.running
    ensures forall n :: Chained(HistoryOf(t, n)) && Latest(HistoryOf(t, n)) == Observed(t, n)
  {
    assert Inv(Empty());
    RunInv(Empty(), es, generators, t);
    OneInformerPerType(t);
    OneHandlerPerGenerator(t);
    forall n ensures Chained(HistoryOf(t, n)) && Latest(HistoryOf(t, n)) == Observed(t, n) {
      assert HistoryRight(t, n);
    }
  }

  /** What one name's part of the manager is: its type, its informer and what was last observed and said of it. */
  ghost predicate SameFor(s: State, t: State, n: FtcName) {
    && (n in t.gvkMapping <==> n in s.gvkMapping) && (n in s.gvkMapping ==> t.gvkMapping[n] == s.gvkMapping[n])
    && (n in t.informers <==> n in s.informers) && (n in s.informers ==> t.informers[n] == s.informers[n])
    && Observed(t, n) == Observed(s, n) && HistoryOf(t, n) == HistoryOf(s, n)
  }

  /** After an FTC is deleted nothing runs for it, and its handlers have been told, if it was ever observed. */
  lemma AfterDeletion(s: State, name: FtcName)
    requires Inv(s)
    ensures var t := ProcessDeletion(s, name);
            && name !in t.gvkMapping && name !in t.informers && name !in t.lastObserved
            && (forall i :: i in t.running ==> i in s.running && t.running[i] == s.running[i])
            && (forall i :: i in t.running ==> t.running[i].owner != name)
            && (forall i :: i in s.running && s.running[i].owner != name ==> i in t.running)
            && HistoryOf(t, name) == HistoryOf(s, name) +
                 (if name in s.lastObserved then [HandlerCall(Some(s.lastObserved[name]), None)] else [])
            && forall n :: n != name ==> SameFor(s, t, n)
  {
    CancelStopsOwn(s, name);
    ForgetTells(s, name);
    assert HistoryOf(ProcessDeletion(s, name), name) == HistoryOf(Forget(s, name), name);
    forall n | n != name ensures SameFor(s, ProcessDeletion(s, name), n) { DeletionKeeps(s, name, n); }
  }

  lemma DeletionKeeps(s: State, name: FtcName, n: FtcName)
    requires n != name
    ensures SameFor(s, ProcessDeletion(s, name), n)
  {}

  lemma ForgetTells(s: State, name: FtcName)
    ensures HistoryOf(Forget(s, name), name) == HistoryOf(s, name) +
              (if name in s.lastObserved then [HandlerCall(Some(s.lastObserved[name]), None)] else [])
  {}

  lemma CancelStopsOwn(s: State, name: FtcName)
    requires Inv(s)
    ensures var running := Cancel(s, name).running;
            forall i :: i in running <==> i in s.running && s.running[i].owner != name
    ensures var running := Cancel(s, name).running; forall i :: i in running ==> running[i] == s.running[i]
  {
    assert s.cancelFuncs == s.informers && MappedRuns(s, name);
    forall i | i in s.running ensures s.running[i].owner in s.informers && s.informers[s.running[i].owner] == i {
      assert RunningMapped(s, i);
    }
  }

  /** After an FTC is processed: with another type than before it is given up, to be processed again; with a type that
      another FTC has nothing changes; otherwise its informer runs for its type and its handlers have been told. */
  lemma AfterProcessing(s: State, ftc: FTC, generators: seq<Generator>, w: World)
    requires Inv(s)
    ensures var t := ProcessFTC(s, ftc, generators, w);
            if ftc.name in s.gvkMapping && s.gvkMapping[ftc.name] != ftc.gvk then t == ProcessDeletion(s, ftc.name)
            else if ftc.name !in s.gvkMapping && ftc.gvk in s.gvkMapping.Values then t == s
            else
              && ftc.name in t.gvkMapping && t.gvkMapping[ftc.name] == ftc.gvk
              && ftc.name in t.informers && t.informers[ftc.name] in t.running
              && t.running[t.informers[ftc.name]] == Running(ftc.name, ftc.gvk)
              && (ftc.name in s.informers ==> t.informers[ftc.name] == s.informers[ftc.name])
              && Observed(t, ftc.name) == Some(ftc)
              && HistoryOf(t, ftc.name) == HistoryOf(s, ftc.name) + [HandlerCall(Observed(s, ftc.name), Some(ftc))]
              && forall n :: n != ftc.name ==> SameFor(s, t, n)
  {
    TakenIff(s, ftc.gvk);
    if (if ftc.name in s.gvkMapping then s.gvkMapping[ftc.name] == ftc.gvk else !Taken(s, ftc.gvk)) {
      var started := if ftc.name in s.gvkMapping then s else StartInformer(s, ftc);
      var observed := Observe(started, ftc);
      AfterObserving(s, started, ftc);
      assert MappedRuns(s, ftc.name);
      assert MappedRuns(observed, ftc.name) && ftc.name in observed.gvkMapping;
      if w.synced { RegisterLeaves(s, observed, ftc, generators, w); }
    }
  }

  lemma TakenIff(s: State, gvk: GVK)
    ensures Taken(s, gvk) <==> gvk in s.gvkMapping.Values
  {}

  lemma RegisterLeaves(s: State, observed: State, ftc: FTC, generators: seq<Generator>, w: World)
    requires ftc.name in observed.informers && ftc.name in observed.registrations && ftc.name in observed.lastApplied
    requires forall n :: n != ftc.name ==> SameFor(s, observed, n)
    ensures var t := Register(observed, ftc, generators, w);
            && t.gvkMapping == observed.gvkMapping && t.informers == observed.informers && t.running == observed.running
            && Observed(t, ftc.name) == Observed(observed, ftc.name)
            && HistoryOf(t, ftc.name) == HistoryOf(observed, ftc.name)
            && forall n :: n != ftc.name ==> SameFor(s, t, n)
  {
    forall n | n != ftc.name ensures SameFor(s, Register(observed, ftc, generators, w), n) {
      assert SameFor(s, observed, n);
    }
  }

  lemma AfterObserving(s: State, started: State, ftc: FTC)
    requires started == if ftc.name in s.gvkMapping then s else StartInformer(s, ftc)
    ensures var t := Observe(started, ftc);
            && Observed(t, ftc.name) == Some(ftc)
            && HistoryOf(t, ftc.name) == HistoryOf(s, ftc.name) + [HandlerCall(Observed(s, ftc.name), Some(ftc))]
            && forall n :: n != ftc.name ==> SameFor(s, t, n)
  {
    forall n | n != ftc.name ensures SameFor(s, Observe(started, ftc), n) { ObservingKeeps(s, started, ftc, n); }
  }

  lemma ObservingKeeps(s: State, started: State, ftc: FTC, n: FtcName)
    requires started == if ftc.name in s.gvkMapping then s else StartInformer(s, ftc)
    requires n != ftc.name
    ensures SameFor(s, Observe(started, ftc), n)
  {}
}
