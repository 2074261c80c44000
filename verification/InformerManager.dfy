/** The informer manager's methods, proved to take exactly the steps of module InformerLifecycle
    (`pkg/util/informermanager/informermanager.go`). */
module InformerManager {
  import opened Wrappers
  import B = Bijection
  import opened InformerLifecycle

  class Manager {
    const generators: seq<Generator>
    const gvkMapping: B.Bijection<FtcName, GVK>
    var informers: map<FtcName, InformerId>
    var cancelFuncs: map<FtcName, InformerId>
    var registrations: map<FtcName, map<Generator, Registration>>
    var lastApplied: map<FtcName, map<Generator, FTC>>
    var lastObserved: map<FtcName, FTC>
    var running: map<InformerId, Running>
    var live: map<Registration, Live>
    var nextId: nat
    var history: map<FtcName, seq<HandlerCall>>

    ghost function Abs(): State
      reads this, gvkMapping
    {
      State(gvkMapping.t1ToT2, informers, cancelFuncs, registrations, lastApplied, lastObserved, running, live,
          nextId, history)
    }

    /** What the methods rely on. Module InformerLifecycle proves `Inv(Abs())` of every state they lead to. */
    ghost predicate Valid()
      reads this, gvkMapping
    {
      gvkMapping.Valid() && Maps(Abs())
    }

    constructor (generators: seq<Generator>)
      ensures Valid() && Abs() == Empty() && this.generators == generators && fresh(gvkMapping)
    {
      this.generators := generators;
      gvkMapping := new B.Bijection();
      informers, cancelFuncs, registrations, lastApplied, lastObserved := map[], map[], map[], map[], map[];
      running, live, nextId, history := map[], map[], 0, map[];
      new;
    }

    method CallUpdateHandlers(name: FtcName, before: Option<FTC>, after: Option<FTC>)
      modifies this`history
      ensures history == old(history)[name := (if name in old(history) then old(history)[name] else []) +
          [HandlerCall(before, after)]]
    {
      var h := if name in history then history[name] else [];
      history := history[name := h + [HandlerCall(before, after)]];
    }

    method StopInformer(name: FtcName)
      modifies this`running, this`live
      ensures Abs() == Cancel(old(Abs()), name)
    {
      if name in cancelFuncs {
        var cancelled := cancelFuncs[name];
        running := running - {cancelled};
        live := map r | r in live && live[r].informer != cancelled :: live[r];
      }
      assert live == Cancel(old(Abs()), name).live;
    }

    method ProcessFTCDeletion(name: FtcName)
      requires gvkMapping.Valid()
      modifies this, gvkMapping
      ensures gvkMapping.Valid() && Abs() == ProcessDeletion(old(Abs()), name)
    {
      StopInformer(name);
      ghost var s := Abs();
      var _ := gvkMapping.DeleteT1(name);
      informers := informers - {name};
      cancelFuncs := cancelFuncs - {name};
      registrations := registrations - {name};
      assert Abs() == Unmap(s, name);
      s := Abs();
      if name in lastObserved {
        CallUpdateHandlers(name, Some(lastObserved[name]), None);
      }
      lastObserved := lastObserved - {name};
      assert Abs() == Forget(s, name);
    }

    method StartNewInformer(ftc: FTC)
      requires ftc.name in gvkMapping.t1ToT2
      modifies this
      ensures Abs() == StartInformer(old(Abs()).(gvkMapping := gvkMapping.t1ToT2 - {ftc.name}),
          ftc).(gvkMapping := gvkMapping.t1ToT2)
      ensures history == old(history) && lastObserved == old(lastObserved)
    {
      informers := informers[ftc.name := nextId];
      cancelFuncs := cancelFuncs[ftc.name := nextId];
      registrations := registrations[ftc.name := map[]];
      lastApplied := lastApplied[ftc.name := map[]];
      running := running[nextId := Running(ftc.name, ftc.gvk)];
      nextId := nextId + 1;
    }

    /** The loop over the event handler generators; it stops at the first error. */
    method RegisterHandlers(ftc: FTC, w: World) returns (ok: bool)
      requires ftc.name in informers && ftc.name in registrations && ftc.name in lastApplied
      modifies this`registrations, this`lastApplied, this`live, this`nextId
      ensures Abs() == Register(old(Abs()), ftc, generators, w)
      ensures ok == Registers(old(Abs()), ftc, generators, w)
    {
      var h := Handlers(registrations[ftc.name], lastApplied[ftc.name], live, nextId);
      var informer := informers[ftc.name];
      ghost var all := RegisterAll(h, informer, ftc, generators, w);
      ok := true;
      var i := 0;
      while i < |generators| && ok
        invariant 0 <= i <= |generators|
        invariant ok ==> RegisterAll(h, informer, ftc, generators[i..], w) == all
        invariant !ok ==> h == all.handlers && !all.ok
        decreases |generators| - i, ok
      {
        var r := RegisterOne(h, informer, ftc, generators[i], w);
        assert generators[i..][1..] == generators[i + 1..];
        h, ok, i := r.handlers, r.ok, i + 1;
      }
      registrations := registrations[ftc.name := h.registrations];
      lastApplied := lastApplied[ftc.name := h.lastApplied];
      live, nextId := h.live, h.nextId;
    }

    method ObserveAndRegister(ftc: FTC, w: World) returns (ok: bool)
      requires ftc.name in informers && ftc.name in registrations && ftc.name in lastApplied
      modifies this
      ensures gvkMapping.t1ToT2 == old(gvkMapping.t1ToT2)
      ensures Abs() == if !w.synced then Observe(old(Abs()), ftc)
          else Register(Observe(old(Abs()), ftc), ftc, generators, w)
      ensures ok == (w.synced ==> Registers(Observe(old(Abs()), ftc), ftc, generators, w))
    {
      CallUpdateHandlers(ftc.name, if ftc.name in lastObserved then Some(lastObserved[ftc.name]) else None, Some(ftc));
      lastObserved := lastObserved[ftc.name := ftc];
      assert Abs() == Observe(old(Abs()), ftc);
      ok := true;
      if w.synced { ok := RegisterHandlers(ftc, w); }
    }

    /** Maps the FTC and starts its informer, unless another FTC has the type. */
    method MapAndStart(ftc: FTC) returns (ok: bool)
      requires gvkMapping.Valid() && ftc.name !in gvkMapping.t1ToT2
      modifies this, gvkMapping
      ensures gvkMapping.Valid() && (ok <==> !Taken(old(Abs()), ftc.gvk))
      ensures Abs() == if ok then StartInformer(old(Abs()), ftc) else old(Abs())
    {
      ghost var s := Abs();
      ok := gvkMapping.Add(ftc.name, ftc.gvk);
      if ok {
        StartNewInformer(ftc);
        assert s.gvkMapping[ftc.name := ftc.gvk] - {ftc.name} == s.gvkMapping;
      }
    }

    method ProcessFTC(ftc: FTC, w: World) returns (needReenqueue: bool, err: bool)
      requires Valid()
      modifies this, gvkMapping
      ensures gvkMapping.Valid() && Abs() == InformerLifecycle.ProcessFTC(old(Abs()), ftc, generators, w)
      ensures var s := old(Abs());
              if ftc.name in s.gvkMapping && s.gvkMapping[ftc.name] != ftc.gvk then needReenqueue && !err
              else if ftc.name !in s.gvkMapping && Taken(s, ftc.gvk) then !needReenqueue && err
              else
                var started := if ftc.name in s.gvkMapping then s else StartInformer(s, ftc);
                && err == (w.synced && !Registers(Observe(started, ftc), ftc, generators, w))
                && needReenqueue == (!w.synced || err)
    {
      var oldGVK := gvkMapping.LookupByT1(ftc.name);
      if oldGVK.Some? {
        if oldGVK.value != ftc.gvk {
          ProcessFTCDeletion(ftc.name);
          return true, false;
        }
      } else {
        var ok := MapAndStart(ftc);
        if !ok { return false, true; }
      }
      var ok := ObserveAndRegister(ftc, w);
      return !w.synced || !ok, !ok;
    }

    /** The informer found for a type is running and watches that type; none is found exactly when no FTC
        has the type. */
    method GetResourceLister(gvk: GVK) returns (informer: Option<InformerId>)
      requires Valid() && Inv(Abs())
      ensures informer.Some? ==> informer.value in running && running[informer.value].gvk == gvk
      ensures informer.None? <==> !Taken(Abs(), gvk)
    {
      var name := gvkMapping.LookupByT2(gvk);
      if name.None? { return None; }
      assert MappedRuns(Abs(), name.value);
      if name.value !in informers { return None; }
      return Some(informers[name.value]);
    }

    method GetResourceFTC(gvk: GVK) returns (ftc: Option<FTC>)
      requires Valid() && Inv(Abs())
      ensures ftc.Some? ==> ftc.value.gvk == gvk && ftc == Observed(Abs(), ftc.value.name)
      ensures ftc.None? <==> !Taken(Abs(), gvk)
    {
      var name := gvkMapping.LookupByT2(gvk);
      if name.None? { return None; }
      assert HistoryRight(Abs(), name.value);
      if name.value !in lastObserved { return None; }
      return Some(lastObserved[name.value]);
    }
  }
}
