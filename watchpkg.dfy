/**
 * The plugin's state across callbacks and its two callbacks:
 * `collect_package_changes` (one call per host event) and
 * `notify_package_changes` (one call after each package operation).
 */
module WatchPkg {
  import opened Wrappers
  import opened PkgHost
  import opened StringList
  import opened Notifications
  import opened Dispatch

  /** The package an event is about: the installed or removed one, the OLD one of an upgrade. */
  function ChangedPackage(evt: Option<Event>): Option<Pkg>
  {
    match evt
    case None => None
    case Some(InstallFinished(pkg)) => pkg
    case Some(DeinstallFinished(pkg)) => pkg
    case Some(UpgradeFinished(o, _)) => o
    case Some(Other) => None
  }

  /** The identity recorded for an event, when there is a package and `pkg_get` succeeds on it. */
  function ChangedId(evt: Option<Event>, pkgGet: Pkg -> Option<PkgId>): Option<PkgId>
  {
    match ChangedPackage(evt)
    case None => None
    case Some(pkg) => pkgGet(pkg)
  }

  /** The watch-list filter: an empty list watches everything, otherwise the name or the origin must be listed. */
  predicate Watched(watch: seq<Option<string>>, id: PkgId)
  {
    watch == [] || Some(id.name) in watch || Some(id.origin) in watch
  }

  /**
   * The globals `cfg_scripts`, `cfg_pkgs` and `pkg_notifications`. The two
   * configuration lists are read once and never change afterwards; the
   * notification store only grows.
   */
  class Session {
    const scripts: StrList
    const pkgs: StrList
    var notifications: Notification?

    ghost function Store(): seq<PkgId>
      reads this
    {
      Notifications.Contents(notifications)
    }

    ghost predicate Valid()
      reads this, scripts, scripts.Repr, pkgs, pkgs.Repr
    {
      && scripts.Valid() && pkgs.Valid()
      && this !in scripts.Repr && this !in pkgs.Repr
      && (notifications != null ==> notifications.Valid())
      && (forall k | 0 <= k < |Store()| :: Watched(pkgs.Contents, Store()[k]))
    }

    /** Reading the SCRIPTS and PKGS arrays of the configuration; the store starts empty. */
    constructor (scriptItems: seq<Option<string>>, pkgItems: seq<Option<string>>)
      ensures Valid() && Store() == []
      ensures scripts.Contents == ConfigList(scriptItems)
      ensures pkgs.Contents == ConfigList(pkgItems)
    {
      var scriptList := ReadListFromConfig(scriptItems);
      var pkgList := ReadListFromConfig(pkgItems);
      scripts, pkgs := scriptList, pkgList;
      notifications := null;
    }

    /**
     * `collect_package_changes`: for an install, deinstall or upgrade event
     * whose package `pkg_get` can read, and that passes the watch-list, the
     * package's (name, origin) is prepended to the store; every other event
     * leaves the store as it was. Always reports success.
     */
    method Collect(evt: Option<Event>, pkgGet: Pkg -> Option<PkgId>) returns (rc: Rc)
      requires Valid()
      modifies this
      ensures Valid() && rc == EpkgOk
      ensures var id := ChangedId(evt, pkgGet);
        Store() == if id.Some? && Watched(pkgs.Contents, id.value) then [id.value] + old(Store()) else old(Store())
    {
      var pkg: Option<Pkg> := None;
      if evt.Some? {
        match evt.value
        case InstallFinished(p) => pkg := p;
        case DeinstallFinished(p) => pkg := p;
        case UpgradeFinished(o, _) => pkg := o;
        case Other =>
      }
      assert pkg == ChangedPackage(evt);
      if pkg.Some? {
        var id := pkgGet(pkg.value);
        if id.Some? {
          var watched := Watches(id.value);
          if watched {
            var head := new Notification(id.value.name, id.value.origin, notifications);
            assert head.contents == [id.value] + Store();
            notifications := head;
          }
        }
      }
      rc := EpkgOk;
    }

    /**
     * The watch-list test of `collect_package_changes`: the NULL list watches
     * every package, otherwise the name is looked up and, failing that, the
     * origin.
     */
    method Watches(id: PkgId) returns (watched: bool)
      requires pkgs.Valid()
      ensures watched <==> Watched(pkgs.Contents, id)
    {
      watched := pkgs.head == null;
      if !watched {
        watched := pkgs.Contains(Some(id.name));
      }
      if !watched {
        watched := pkgs.Contains(Some(id.origin));
      }
    }

    /**
     * `notify_package_changes`: runs every script, in list order, on every
     * stored notification, in store order, without stopping at a failure;
     * `calls` is the sequence of runs. The result is fatal iff a run failed.
     * Nothing is modified: the store is not emptied.
     */
    method Notify(run: Call -> bool) returns (rc: Rc, calls: seq<Call>)
      requires Valid()
      ensures calls == Trace(scripts.Contents, Store())
      ensures rc == Verdict(calls, run)
    {
      ghost var names := scripts.Contents;
      ghost var store := Store();
      rc := EpkgOk;
      calls := [];
      var script := scripts.head;
      ghost var i := 0;
      while script != null
        invariant 0 <= i <= |names|
        invariant script == if i < |names| then scripts.nodes[i] else null
        invariant calls == Trace(names[..i], store)
        invariant rc == Verdict(calls, run)
        decreases |names| - i
      {
        var pkg := notifications;
        ghost var j := 0;
        while pkg != null
          invariant 0 <= j <= |store|
          invariant pkg == null ==> j == |store|
          invariant pkg != null ==> j < |store| && pkg.Valid() && pkg.contents == store[j..]
          invariant calls == Trace(names[..i], store) + Row(names[i], store[..j])
          invariant rc == Verdict(calls, run)
          decreases |store| - j
        {
          var call := Call(script.value, pkg.name, pkg.origin);
          calls := calls + [call];
          if !run(call) {
            rc := EpkgFatal;
          }
          pkg := pkg.next;
          j := j + 1;
        }
        assert store[..j] == store;
        assert names[..i + 1][..i] == names[..i];
        script := script.next;
        i := i + 1;
      }
      assert names[..i] == names;
    }
  }

  /** For an upgrade, the recorded identity is the old package's: the new package is never read. */
  lemma UpgradeRecordsOldPackage(o: Option<Pkg>, n: Option<Pkg>, n': Option<Pkg>, pkgGet: Pkg -> Option<PkgId>)
    ensures ChangedId(Some(UpgradeFinished(o, n)), pkgGet) == ChangedId(Some(UpgradeFinished(o, n')), pkgGet)
    ensures ChangedId(Some(UpgradeFinished(o, n)), pkgGet) == if o.Some? then pkgGet(o.value) else None
  {
  }

  /**
   * One batch as a client sees it: scripts ["/bin/notify.sh"], no watch-list,
   * an install of curl and then a removal of wget. The store is in prepend
   * order, so wget is reported before curl, and it still holds both
   * notifications after the dispatch.
   */
  method Batch()
  {
    var notify := "/bin/notify.sh";
    var session := new Session([Some(notify)], []);
    assert session.scripts.Contents == [Some(notify)];
    var curl := PkgId("curl", "ftp/curl");
    var wget := PkgId("wget", "ftp/wget");
    var pkgGet := (p: Pkg) => if p.handle == 1 then Some(curl) else Some(wget);
    var rc := session.Collect(Some(InstallFinished(Some(Pkg(1)))), pkgGet);
    rc := session.Collect(Some(DeinstallFinished(Some(Pkg(2)))), pkgGet);
    assert session.Store() == [wget, curl];
    var calls;
    rc, calls := session.Notify(c => true);
    assert calls == [Call(Some(notify), "wget", "ftp/wget"), Call(Some(notify), "curl", "ftp/curl")];
    assert rc == EpkgOk;
    assert session.Store() == [wget, curl];
  }
}
