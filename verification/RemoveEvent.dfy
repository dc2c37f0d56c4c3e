/** The file system watcher's reaction to a removed path. */
module RemoveEvent {
  import opened Prelude
  import opened ListenerManager

  const SEPARATOR: string := "/"

  /** Without one trailing separator. */
  function Trimmed(path: string): string {
    if path != "" && path[|path| - 1] == '/' then path[..|path| - 1] else path
  }

  function DirOf(path: string): string {
    Trimmed(path) + SEPARATOR
  }

  /** The id is the removed path itself or lies below it. */
  predicate Under(id: string, path: string) {
    id == path || DirOf(path) <= id
  }

  /** An id that merely begins like the removed path is not below it: the next character
      must be the separator. */
  lemma SiblingsSurvive(id: string, path: string)
    requires Trimmed(path) == path
    ensures Under(id, path) <==>
            path <= id && (|id| == |path| || id[|path|] == '/')
  {
    if path <= id && |id| > |path| && id[|path|] == '/' {
      assert id[..|path| + 1] == path + [id[|path|]];
    }
  }

  /** Below a path is what continues it with a separator, which the path may end with already. */
  lemma UnderIff(id: string, path: string)
    ensures Under(id, path) <==>
            if path != "" && path[|path| - 1] == '/' then path <= id else id == path || path + "/" <= id
  {
    if path != "" && path[|path| - 1] == '/' {
      assert DirOf(path) == path;
    }
  }

  /** A trailing separator makes no difference to what lies below, but a file of the bare
      name is then left alone. */
  lemma TrailingSeparator(id: string, path: string)
    requires Trimmed(path) == path
    ensures Under(id, path + SEPARATOR) <==> Under(id, path) && id != path
  {
    assert Trimmed(path + SEPARATOR) == path;
  }

  /** What is left of the map. */
  ghost function Remaining(m: Listeners, gone: seq<string>): Listeners {
    map id | id in m && id !in gone :: m[id]
  }

  method Affected(configs: map<string, Config>, path: string) returns (ids: seq<string>)
    ensures forall id :: id in ids <==> id in configs && Under(id, path)
    ensures forall i, j :: 0 <= i < j < |ids| ==> ids[i] != ids[j]
  {
    ids := [];
    var dir := DirOf(path);
    var todo := configs.Keys;
    while todo != {}
      invariant todo <= configs.Keys
      invariant forall id :: id in ids <==> id in configs && id !in todo && Under(id, path)
      invariant forall i, j :: 0 <= i < j < |ids| ==> ids[i] != ids[j]
      decreases |todo|
    {
      var id :| id in todo;
      if id == path {
        ids := ids + [id];
      } else if dir <= id {
        ids := ids + [id];
      }
      todo := todo - {id};
    }
  }

  lemma OneLess(m: Listeners, ids: seq<string>, i: nat)
    requires i < |ids|
    ensures Remaining(m, ids[..i + 1]) == Remaining(m, ids[..i]) - {ids[i]}
  {
    assert ids[..i + 1] == ids[..i] + [ids[i]];
  }

  lemma RemainingAre(m: Listeners, ids: seq<string>, path: string)
    requires forall id :: id in ids <==> id in m && Under(id, path)
    ensures Remaining(m, ids) == map id | id in m && !Under(id, path) :: m[id]
  {
  }

  method DeleteAll(om: Manager, ids: seq<string>) returns (ok: bool)
    requires om.Valid()
    requires forall i :: 0 <= i < |ids| ==> ids[i] in om.Mapped()
    requires forall i, j :: 0 <= i < j < |ids| ==> ids[i] != ids[j]
    modifies om`listenerMap, om.provider, om.gauge, om.Mapped().Values
    ensures om.Valid() && ok && om.Mapped() == Remaining(old(om.Mapped()), ids)
    ensures om.listenerMap.Some? == old(om.listenerMap).Some?
  {
    ok := true;
    ghost var m := om.Mapped();
    assert Remaining(m, []) == m;
    for i := 0 to |ids|
      invariant om.Valid() && ok && om.Mapped() == Remaining(m, ids[..i])
      invariant om.Mapped().Values <= m.Values
      invariant om.listenerMap.Some? == old(om.listenerMap).Some?
    {
      OneLess(m, ids, i);
      var deleted := om.Delete(ids[i]);
      ok := ok && deleted;
    }
    assert ids[..|ids|] == ids;
  }

  /** After the removal of a path exactly the listeners of other ids are left, and nothing
      fails; for a stopped manager there is nothing to do. */
  method HandleRemoveEvent(om: Manager, path: string) returns (ok: bool)
    requires om.Valid()
    modifies om`listenerMap, om.provider, om.gauge, om.Mapped().Values
    ensures om.Valid() && ok
    ensures om.Mapped() == map id | id in old(om.Mapped()) && !Under(id, path) :: old(om.Mapped())[id]
    ensures old(om.listenerMap).None? ==> om.listenerMap.None?
  {
    var configs := om.ConfigMap();
    var ids := Affected(configs, path);
    assert forall i :: 0 <= i < |ids| ==> ids[i] in ids;
    RemainingAre(om.Mapped(), ids, path);
    ok := DeleteAll(om, ids);
  }
}
