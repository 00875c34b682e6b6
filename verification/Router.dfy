/** `MCPRouter.apply_configuration` in its own form: the loops that find the retired paths, mark
    their runtimes for draining, and build and publish the next snapshot. Runtime objects are
    values of `Lifecycle.Runtime` filed under their identity. */
module Router {
  import opened Common
  import opened Lifecycle
  import opened Reload

  class MCPRouter {
    var objects: map<Rid, Runtime>
    var registry: map<string, Rid>
    var pending: Option<Config>
    var generation: nat

    function Value(): World
      reads this
    {
      World(objects, registry, pending, generation)
    }

    constructor ()
      ensures Value() == EmptyWorld && WorldSafe(Value())
    {
      objects, registry, pending, generation := map[], map[], None, 0;
    }

    method RetiredPaths(c: Config) returns (retired: set<string>)
      ensures forall p :: p in retired <==> p in registry && !KeepsPath(Value(), c, p)
    {
      retired := {};
      var todo := registry.Keys;
      while todo != {}
        invariant todo <= registry.Keys
        invariant forall p :: p in retired <==> p in registry && p !in todo && !KeepsPath(Value(), c, p)
      {
        var path :| path in todo;
        if path !in c || !(registry[path] in objects) || RequiresReset(objects[registry[path]].config, c[path]) {
          retired := retired + {path};
        }
        todo := todo - {path};
      }
    }

    /** Up to the first drain: the reload lock is taken and every retired runtime is to be drained. */
    method BeginReload(c: Config)
      requires WorldSafe(Value()) && ValidConfig(c)
      modifies this
      ensures Value() == Reload.BeginReload(old(Value()), c) && WorldSafe(Value())
    {
      BeginKeepsSafe(Value(), c);
      RequestDrains(c);
    }

    method RequestDrains(c: Config)
      requires RegistrySafe(Value())
      modifies this
      ensures Value() == Reload.BeginReload(old(Value()), c)
    {
      if pending.Some? {
        return;
      }
      ghost var w := Value();
      var retired := RetiredPaths(c);
      var marked := MarkRetired(retired);
      RequestingAll(w, c, retired);
      pending, objects := Some(c), marked;
    }

    method MarkRetired(retired: set<string>) returns (marked: map<Rid, Runtime>)
      requires RegistrySafe(Value()) && retired <= registry.Keys
      ensures marked == Requesting(Value(), retired)
    {
      hide Requesting;
      marked := objects;
      var todo := retired;
      NoneRequested(Value());
      assert retired - todo == {};
      while todo != {}
        invariant todo <= retired
        invariant marked == Requesting(Value(), retired - todo)
      {
        var path :| path in todo;
        var rid := registry[path];
        RequestOne(Value(), retired - todo, path);
        assert retired - (todo - {path}) == (retired - todo) + {path};
        marked := marked[rid := objects[rid].(drain := Requested)];
        todo := todo - {path};
      }
      assert retired - todo == retired;
    }

    /** The publication block, once every retired runtime is drained and closed. */
    method Publish()
      requires WorldSafe(Value()) && ReadyToPublish(Value())
      modifies this
      ensures Value() == Reload.Publish(old(Value())) && WorldSafe(Value())
      ensures registry.Keys == old(pending).value.Keys
    {
      PublishKeepsSafe(Value());
      PublishMeans(Value());
      Replace();
    }

    method Replace()
      requires RegistrySafe(Value()) && ReadyToPublish(Value())
      requires forall rid <- objects :: rid.generation < generation
      modifies this
      ensures Value() == Reload.Publish(old(Value()))
    {
      ghost var w := Value();
      var next, made := BuildNext(pending.value);
      MadeAll(w, pending.value);
      objects, registry, pending, generation := objects + made, next, None, generation + 1;
    }

    method BuildNext(c: Config) returns (next: map<string, Rid>, made: map<Rid, Runtime>)
      requires RegistrySafe(Value())
      ensures next == NextRegistry(Value(), c) && made == Made(Value(), c, c.Keys)
    {
      hide ScheduleRestart;
      next, made := map[], map[];
      var todo := c.Keys;
      while todo != {}
        invariant todo <= c.Keys
        invariant next == NextPart(Value(), c, c.Keys - todo)
        invariant made == Made(Value(), c, c.Keys - todo)
      {
        var path :| path in todo;
        MakeOne(Value(), c, c.Keys - todo, path);
        assert c.Keys - (todo - {path}) == (c.Keys - todo) + {path};
        if path in registry && registry[path] in objects && !RequiresReset(objects[registry[path]].config, c[path]) {
          var current := registry[path];
          next := next[path := current];
          made := made[current := Reconfigure(objects[current], c[path])];
        } else {
          next := next[path := Rid(path, generation)];
          made := made[Rid(path, generation) := FromConfig(c[path])];
        }
        todo := todo - {path};
      }
      assert c.Keys - todo == c.Keys;
    }
  }

  // --------------------------------------------- what the loops have done so far

  ghost function Requesting(w: World, done: set<string>): map<Rid, Runtime> {
    map rid | rid in w.objects ::
      if Registered(w, rid) && rid.path in done then w.objects[rid].(drain := Requested) else w.objects[rid]
  }

  lemma NoneRequested(w: World)
    ensures Requesting(w, {}) == w.objects
  {
  }

  lemma RequestOne(w: World, done: set<string>, path: string)
    requires RegistrySafe(w) && path in w.registry
    ensures Requesting(w, done + {path}) ==
      Requesting(w, done)[w.registry[path] := w.objects[w.registry[path]].(drain := Requested)]
  {
  }

  lemma RequestingAll(w: World, c: Config, retired: set<string>)
    requires RegistrySafe(w) && w.pending.None?
    requires forall p :: p in retired <==> p in w.registry && !KeepsPath(w, c, p)
    ensures Reload.BeginReload(w, c) == w.(pending := Some(c), objects := Requesting(w, retired))
  {
  }

  ghost function NextRid(w: World, c: Config, p: string): Rid {
    if KeepsPath(w, c, p) then w.registry[p] else Rid(p, w.generation)
  }

  ghost function NextPart(w: World, c: Config, done: set<string>): map<string, Rid> {
    map p | p in c && p in done :: NextRid(w, c, p)
  }

  ghost function MadeAt(w: World, c: Config, p: string): Runtime
    requires p in c
  {
    if KeepsPath(w, c, p) then Reconfigure(w.objects[w.registry[p]], c[p]) else FromConfig(c[p])
  }

  ghost function Made(w: World, c: Config, done: set<string>): map<Rid, Runtime>
    requires RegistrySafe(w)
  {
    map p | p in c && p in done :: NextRid(w, c, p) := MadeAt(w, c, p)
  }

  lemma MakeOne(w: World, c: Config, done: set<string>, p: string)
    requires RegistrySafe(w) && p in c
    ensures NextPart(w, c, done + {p}) == NextPart(w, c, done)[p := NextRid(w, c, p)]
    ensures Made(w, c, done + {p}) == Made(w, c, done)[NextRid(w, c, p) := MadeAt(w, c, p)]
  {
  }

  lemma MadeAll(w: World, c: Config)
    requires RegistrySafe(w) && w.pending == Some(c) && ReadyToPublish(w)
    requires forall rid <- w.objects :: rid.generation < w.generation
    ensures Reload.Publish(w) == World(w.objects + Made(w, c, c.Keys), NextRegistry(w, c), None, w.generation + 1)
  {
    var next, merged := Reload.Publish(w).objects, w.objects + Made(w, c, c.Keys);
    forall rid: Rid ensures rid in next <==> rid in merged {
      MadeKeys(w, c, rid);
    }
    forall rid | rid in next ensures next[rid] == merged[rid] {
      MadeKeys(w, c, rid);
    }
    assert next == merged;
  }

  lemma MadeKeys(w: World, c: Config, rid: Rid)
    requires RegistrySafe(w) && forall x <- w.objects :: x.generation < w.generation
    ensures rid in Made(w, c, c.Keys) <==> rid.path in c && NextRid(w, c, rid.path) == rid
    ensures rid in FreshRids(w, c) <==>
      rid.path in c && !KeepsPath(w, c, rid.path) && rid == Rid(rid.path, w.generation)
    ensures rid in Made(w, c, c.Keys) ==> Made(w, c, c.Keys)[rid] == NextObject(w, c, rid)
  {
  }
}
