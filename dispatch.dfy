/**
 * The invocation order of the dispatcher (`notify_package_changes`) and its
 * aggregate result, stated over values: every configured script, in list
 * order, runs once for every stored notification, in store order.
 */
module Dispatch {
  import opened Wrappers
  import opened PkgHost

  /** The runs of one script, one per notification in store order. */
  function Row(script: Option<string>, store: seq<PkgId>): seq<Call>
  {
    seq(|store|, j requires 0 <= j < |store| => Call(script, store[j].name, store[j].origin))
  }

  /** All runs of a dispatch: the rows of the scripts, script after script. */
  function Trace(scripts: seq<Option<string>>, store: seq<PkgId>): seq<Call>
  {
    if scripts == [] then []
    else Trace(scripts[..|scripts| - 1], store) + Row(scripts[|scripts| - 1], store)
  }

  /** The aggregate return code: fatal as soon as one run failed, otherwise OK. */
  function Verdict(calls: seq<Call>, run: Call -> bool): Rc
  {
    if forall c | c in calls :: run(c) then EpkgOk else EpkgFatal
  }

  /** A dispatch runs exactly |scripts| * |store| scripts. */
  lemma {:induction false} TraceLength(scripts: seq<Option<string>>, store: seq<PkgId>)
    ensures |Trace(scripts, store)| == |scripts| * |store|
  {
    if scripts != [] {
      var n := |scripts| - 1;
      TraceLength(scripts[..n], store);
      assert |Trace(scripts, store)| == n * |store| + |store|;
    }
  }

  /** With rows of m runs, row i of a trace ends within the first n rows when i < n. */
  lemma MulStep(i: nat, n: nat, m: nat)
    requires i < n
    ensures i * m + m <= n * m
  {
    assert (i + 1) * m <= n * m;
  }

  /**
   * Script-major order: the run at position i * |store| + j is script i on
   * notification j, so script i sees every notification before script i + 1
   * runs at all.
   */
  lemma {:induction false} TraceAt(scripts: seq<Option<string>>, store: seq<PkgId>, i: nat, j: nat)
    requires i < |scripts| && j < |store|
    ensures i * |store| + j < |Trace(scripts, store)|
    ensures Trace(scripts, store)[i * |store| + j] == Call(scripts[i], store[j].name, store[j].origin)
  {
    var n := |scripts| - 1;
    var prefix := scripts[..n];
    TraceLength(prefix, store);
    TraceLength(scripts, store);
    if i < n {
      TraceAt(prefix, store, i, j);
      MulStep(i, n, |store|);
    }
  }

  /** Every run of a dispatch is some script on some stored notification, and conversely. */
  lemma {:induction false} TraceMembers(scripts: seq<Option<string>>, store: seq<PkgId>, c: Call)
    ensures c in Trace(scripts, store) <==>
      exists i, j | 0 <= i < |scripts| && 0 <= j < |store| :: c == Call(scripts[i], store[j].name, store[j].origin)
  {
    if scripts != [] {
      var n := |scripts| - 1;
      var prefix := scripts[..n];
      TraceMembers(prefix, store, c);
      if c in Row(scripts[n], store) {
        var j :| 0 <= j < |store| && Row(scripts[n], store)[j] == c;
        assert c == Call(scripts[n], store[j].name, store[j].origin);
      }
      if exists i, j | 0 <= i < |scripts| && 0 <= j < |store| :: c == Call(scripts[i], store[j].name, store[j].origin) {
        var i, j :| 0 <= i < |scripts| && 0 <= j < |store| && c == Call(scripts[i], store[j].name, store[j].origin);
        if i < n {
          assert c == Call(prefix[i], store[j].name, store[j].origin);
        } else {
          assert Row(scripts[n], store)[j] == c;
        }
      }
    }
  }

  /**
   * No short-circuit: a dispatch is fatal exactly when some script failed on
   * some notification, since every pair is run whatever the earlier outcomes.
   */
  lemma {:induction false} DispatchFatalIff(scripts: seq<Option<string>>, store: seq<PkgId>, run: Call -> bool)
    ensures Verdict(Trace(scripts, store), run) == EpkgFatal <==>
      exists i, j | 0 <= i < |scripts| && 0 <= j < |store| :: !run(Call(scripts[i], store[j].name, store[j].origin))
  {
    var calls := Trace(scripts, store);
    if Verdict(calls, run) == EpkgFatal {
      var c :| c in calls && !run(c);
      TraceMembers(scripts, store, c);
    } else {
      forall i, j | 0 <= i < |scripts| && 0 <= j < |store|
        ensures run(Call(scripts[i], store[j].name, store[j].origin))
      {
        TraceMembers(scripts, store, Call(scripts[i], store[j].name, store[j].origin));
      }
    }
  }
}
