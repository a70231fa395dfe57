/**
 * The patch layer (patches.py): the parameter helper, the one-time
 * installer that swaps six host export functions for wrappers, and the
 * wrappers themselves, which prepend letterhead rows to the exported data
 * and pass a context override from the report-level exports down to the
 * file builders.
 */
module Patches {
  import opened Wrappers
  import opened Text
  import opened PyValue
  import opened Fonts
  import opened Utils
  import opened Sheet

  // ---------------------------------------------------------------------
  // _get_param_value
  // ---------------------------------------------------------------------

  /**
   * `_get_param_value(source, *keys, default=fallback)`: the first value
   * under `keys` that is neither `None` nor empty once a string is
   * stripped, else `fallback`; a falsy source gives `fallback` at once.
   */
  function GetParamValue(source: Source, keys: seq<string>, fallback: Value): (r: Value)
    ensures SourceFalsy(source) ==> r == fallback
    ensures r == fallback || Present(r)
    ensures r != fallback && r.VStr? ==> Trimmed(r.s) && r.s != ""
  {
    if SourceFalsy(source) then fallback
    else
      match FirstPresent(source.value, keys)
      case Some(v) => v
      case None => fallback
  }

  /**
   * The two lookup helpers agree: `_get_param_value` is `_safe_get_value`
   * with `fallback` in place of `None`.
   */
  lemma GetParamValueIsSafeGetValue(source: Source, keys: seq<string>, fallback: Value)
    ensures GetParamValue(source, keys, fallback) ==
            if SafeGetValue(source, keys) == VNone then fallback else SafeGetValue(source, keys)
  {
  }

  /** The fallback is returned exactly when no key holds a present value. */
  lemma GetParamValueFallback(source: Source, keys: seq<string>, fallback: Value)
    requires source.Some? && Present(fallback) ==> forall i :: 0 <= i < |keys| ==> StrippedAt(source.value, keys[i]) != fallback
    ensures GetParamValue(source, keys, fallback) == fallback <==>
            SourceFalsy(source) ||
            forall i :: 0 <= i < |keys| ==> !Present(StrippedAt(source.value, keys[i]))
  {
    if !SourceFalsy(source) {
      FirstPresentNone(source.value, keys);
      if FirstPresent(source.value, keys).Some? {
        var k := FirstPresentFirst(source.value, keys);
      }
    }
  }

  // ---------------------------------------------------------------------
  // apply_patches
  // ---------------------------------------------------------------------

  /** A patch site: a module of the host and the attribute replaced in it. */
  datatype Site = Site(pkg: string, attr: string)

  /** A function bound at a site: the host's own, or this app's wrapper for a registry key. */
  datatype Fn = Native(id: string) | Wrapper(key: string)

  /** One patch: the registry key its original is saved under and the site it replaces. */
  datatype Patch = Patch(key: string, site: Site)

  /** The six patches, in the order `apply_patches` installs them. */
  const PatchTable: seq<Patch> := [
    Patch("make_xlsx", Site("frappe.utils.xlsxutils", "make_xlsx")),
    Patch("build_xlsx_response", Site("frappe.utils.xlsxutils", "build_xlsx_response")),
    Patch("build_csv_response", Site("frappe.utils.csvutils", "build_csv_response")),
    Patch("get_csv_bytes", Site("frappe.desk.utils", "get_csv_bytes")),
    Patch("_export_query", Site("frappe.desk.query_report", "_export_query")),
    Patch("_export_query_reportview", Site("frappe.desk.reportview", "_export_query"))
  ]

  /**
   * The installer's view of the world: the registry of saved originals
   * (`_original_functions`), what each host site is bound to, and whether
   * an exception has been raised.
   */
  datatype InstallState = InstallState(originals: map<string, Fn>, bindings: map<Site, Fn>, raised: bool)

  /**
   * One block of `apply_patches`: import the module (raises when the host
   * has no such module), and, unless the key is already registered, save
   * the site's current function under the key (raises when the site is
   * missing) and bind the wrapper in its place. Nothing runs after a raise.
   */
  function Step(st: InstallState, modules: set<string>, p: Patch): (r: InstallState)
    ensures st.raised ==> r == st
    ensures forall k :: k in st.originals ==> k in r.originals && r.originals[k] == st.originals[k]
    ensures !r.raised ==> p.site.pkg in modules && p.key in r.originals
    ensures r.bindings.Keys == st.bindings.Keys
  {
    if st.raised then st
    else if p.site.pkg !in modules then st.(raised := true)
    else if p.key in st.originals then st
    else if p.site !in st.bindings then st.(raised := true)
    else InstallState(st.originals[p.key := st.bindings[p.site]], st.bindings[p.site := Wrapper(p.key)], false)
  }

  /** The blocks of `ps` run in order. */
  function Steps(st: InstallState, modules: set<string>, ps: seq<Patch>): InstallState
    decreases |ps|
  {
    if ps == [] then st else Step(Steps(st, modules, ps[..|ps| - 1]), modules, ps[|ps| - 1])
  }

  /** The registry is write-once: no entry is ever replaced or removed. */
  lemma {:induction false} StepsWriteOnce(st: InstallState, modules: set<string>, ps: seq<Patch>)
    ensures forall k :: k in st.originals ==>
              k in Steps(st, modules, ps).originals && Steps(st, modules, ps).originals[k] == st.originals[k]
    ensures Steps(st, modules, ps).bindings.Keys == st.bindings.Keys
    decreases |ps|
  {
    if ps != [] {
      StepsWriteOnce(st, modules, ps[..|ps| - 1]);
    }
  }

  /** Once an exception is raised, the remaining blocks change nothing. */
  lemma {:induction false} StepsAfterRaise(st: InstallState, modules: set<string>, ps: seq<Patch>, i: nat)
    requires i <= |ps| && Steps(st, modules, ps[..i]).raised
    ensures Steps(st, modules, ps) == Steps(st, modules, ps[..i])
    decreases |ps| - i
  {
    if i < |ps| {
      assert ps[..i + 1][..i] == ps[..i];
      StepsAfterRaise(st, modules, ps, i + 1);
    } else {
      assert ps[..i] == ps;
    }
  }

  /** A run that does not raise leaves every key registered and every module imported. */
  lemma {:induction false} StepsRegistered(st: InstallState, modules: set<string>, ps: seq<Patch>)
    requires !Steps(st, modules, ps).raised
    ensures forall j :: 0 <= j < |ps| ==>
              ps[j].site.pkg in modules && ps[j].key in Steps(st, modules, ps).originals
    decreases |ps|
  {
    if ps != [] {
      var init := ps[..|ps| - 1];
      StepsRegistered(st, modules, init);
      forall j | 0 <= j < |ps| - 1
        ensures ps[j].site.pkg in modules && ps[j].key in Steps(st, modules, ps).originals
      {
        assert ps[j] == init[j];
      }
    }
  }

  /** With every module importable and every key registered, a run changes nothing. */
  lemma {:induction false} StepsNothingToDo(st: InstallState, modules: set<string>, ps: seq<Patch>)
    requires !st.raised
    requires forall j :: 0 <= j < |ps| ==> ps[j].site.pkg in modules && ps[j].key in st.originals
    ensures Steps(st, modules, ps) == st
    decreases |ps|
  {
    if ps != [] {
      StepsNothingToDo(st, modules, ps[..|ps| - 1]);
    }
  }

  /** A run that raises has a first block that raises, after a prefix that does not. */
  lemma {:induction false} FirstRaise(st: InstallState, modules: set<string>, ps: seq<Patch>) returns (i: nat)
    requires !st.raised && Steps(st, modules, ps).raised
    ensures i < |ps| && !Steps(st, modules, ps[..i]).raised && Steps(st, modules, ps[..i + 1]).raised
    decreases |ps|
  {
    var pre := ps[..|ps| - 1];
    if Steps(st, modules, pre).raised {
      i := FirstRaise(st, modules, pre);
      assert pre[..i] == ps[..i] && pre[..i + 1] == ps[..i + 1];
    } else {
      i := |ps| - 1;
      assert ps[..i] == pre && ps[..i + 1] == ps;
    }
  }

  /**
   * Installing is idempotent even without the `_applied` guard: a second
   * call, which starts without a pending exception, finds every key of the
   * first call registered and does nothing more. If the first call raised,
   * the second raises at the same block and leaves the same state.
   */
  lemma InstallIdempotent(st: InstallState, modules: set<string>, ps: seq<Patch>)
    requires !st.raised
    ensures Steps(Steps(st, modules, ps).(raised := false), modules, ps) == Steps(st, modules, ps)
  {
    var r := Steps(st, modules, ps);
    if r.raised {
      var i := FirstRaise(st, modules, ps);
      var q := Steps(st, modules, ps[..i]);
      StepsSnoc(st, modules, ps, i);
      StepsAfterRaise(st, modules, ps, i + 1);
      assert r == q.(raised := true) && r.(raised := false) == q;
      StepsRegistered(st, modules, ps[..i]);
      forall j | 0 <= j < i ensures ps[j].site.pkg in modules && ps[j].key in q.originals {
        assert ps[..i][j] == ps[j];
      }
      StepsNothingToDo(q, modules, ps[..i]);
      StepsSnoc(q, modules, ps, i);
      StepsAfterRaise(q, modules, ps, i + 1);
    } else {
      StepsRegistered(st, modules, ps);
      StepsNothingToDo(r, modules, ps);
    }
  }

  /** No two patches share a registry key or a site. */
  predicate DistinctPatches(ps: seq<Patch>) {
    forall i, j :: 0 <= i < j < |ps| ==> ps[i].key != ps[j].key && ps[i].site != ps[j].site
  }

  /** The registry keys of `ps`. */
  function KeysOf(ps: seq<Patch>): set<string> {
    set j | 0 <= j < |ps| :: ps[j].key
  }

  lemma KeysOfSnoc(ps: seq<Patch>, p: Patch)
    ensures KeysOf(ps + [p]) == KeysOf(ps) + {p.key}
  {
    var qs := ps + [p];
    assert qs[|ps|] == p;
    forall k | k in KeysOf(ps) ensures k in KeysOf(qs) {
      var j :| 0 <= j < |ps| && ps[j].key == k;
      assert qs[j] == ps[j];
    }
  }

  /** The keys of one more block are the keys so far and that block's key. */
  lemma KeysOfPrefix(ps: seq<Patch>, i: nat)
    requires i < |ps|
    ensures KeysOf(ps[..i + 1]) == KeysOf(ps[..i]) + {ps[i].key}
  {
    KeysOfSnoc(ps[..i], ps[i]);
    assert ps[..i] + [ps[i]] == ps[..i + 1];
  }

  /** The host offers every module and site of `ps`, and no key of `ps` is registered yet. */
  predicate FreshHost(st: InstallState, modules: set<string>, ps: seq<Patch>) {
    forall j :: 0 <= j < |ps| ==>
      ps[j].site.pkg in modules && ps[j].site in st.bindings && ps[j].key !in st.originals
  }

  /**
   * On a host that offers every site, the first `i` blocks do not raise,
   * register exactly the keys of those blocks and leave the sites of the
   * later blocks bound as they were.
   */
  lemma {:induction false} InstallFreshShape(st: InstallState, modules: set<string>, ps: seq<Patch>, i: nat)
    requires !st.raised && DistinctPatches(ps) && FreshHost(st, modules, ps) && i <= |ps|
    ensures var r := Steps(st, modules, ps[..i]);
            && !r.raised
            && r.bindings.Keys == st.bindings.Keys
            && r.originals.Keys == st.originals.Keys + KeysOf(ps[..i])
            && (forall j :: i <= j < |ps| ==> r.bindings[ps[j].site] == st.bindings[ps[j].site])
    decreases i
  {
    if i == 0 {
      assert ps[..0] == [];
    } else {
      InstallFreshShape(st, modules, ps, i - 1);
      var q := Steps(st, modules, ps[..i - 1]);
      var p := ps[i - 1];
      assert !q.raised && p.site.pkg in modules && p.site in q.bindings && p.key !in q.originals by {
        KeyNotEarlier(ps, i - 1);
      }
      var r := InstallState(q.originals[p.key := q.bindings[p.site]], q.bindings[p.site := Wrapper(p.key)], false);
      assert Steps(st, modules, ps[..i]) == r by {
        StepsSnoc(st, modules, ps, i - 1);
      }
      KeysOfPrefix(ps, i - 1);
      forall j | i <= j < |ps| ensures r.bindings[ps[j].site] == st.bindings[ps[j].site] {
        assert ps[j].site != p.site;
      }
    }
  }

  /**
   * On a host that offers every site, the first `i` blocks save the host's
   * function under each key and bind each site to its wrapper.
   */
  lemma {:induction false} InstallFreshPrefix(st: InstallState, modules: set<string>, ps: seq<Patch>, i: nat)
    requires !st.raised && DistinctPatches(ps) && FreshHost(st, modules, ps) && i <= |ps|
    ensures var r := Steps(st, modules, ps[..i]);
            && (forall j :: 0 <= j < i ==>
                  && ps[j].key in r.originals && r.originals[ps[j].key] == st.bindings[ps[j].site]
                  && ps[j].site in r.bindings && r.bindings[ps[j].site] == Wrapper(ps[j].key))
    decreases i
  {
    if i == 0 {
      assert ps[..0] == [];
    } else {
      var q := Steps(st, modules, ps[..i - 1]);
      var p := ps[i - 1];
      InstallFreshPrefix(st, modules, ps, i - 1);
      assert !q.raised && p.site.pkg in modules && p.site in q.bindings && p.key !in q.originals
             && q.bindings[p.site] == st.bindings[p.site] by {
        InstallFreshShape(st, modules, ps, i - 1);
        KeyNotEarlier(ps, i - 1);
      }
      var r := InstallState(q.originals[p.key := q.bindings[p.site]], q.bindings[p.site := Wrapper(p.key)], false);
      assert Steps(st, modules, ps[..i]) == r by {
        StepsSnoc(st, modules, ps, i - 1);
      }
      forall j | 0 <= j < i
        ensures && ps[j].key in r.originals && r.originals[ps[j].key] == st.bindings[ps[j].site]
                && ps[j].site in r.bindings && r.bindings[ps[j].site] == Wrapper(ps[j].key)
      {
        if j < i - 1 {
          assert ps[j].key != p.key && ps[j].site != p.site;
        }
      }
    }
  }

  /** A run of blocks rebinds only the sites of the blocks it ran. */
  lemma {:induction false} StepsOtherSites(st: InstallState, modules: set<string>, ps: seq<Patch>, s: Site)
    requires s in st.bindings && forall j :: 0 <= j < |ps| ==> ps[j].site != s
    ensures s in Steps(st, modules, ps).bindings
    ensures Steps(st, modules, ps).bindings[s] == st.bindings[s]
    decreases |ps|
  {
    if ps != [] {
      var pre := ps[..|ps| - 1];
      forall j | 0 <= j < |pre| ensures pre[j].site != s {
        assert pre[j] == ps[j];
      }
      StepsOtherSites(st, modules, pre, s);
      StepsWriteOnce(st, modules, pre);
    }
  }

  /** Running one more block is one more step. */
  lemma StepsSnoc(st: InstallState, modules: set<string>, ps: seq<Patch>, i: nat)
    requires i < |ps|
    ensures Steps(st, modules, ps[..i + 1]) == Step(Steps(st, modules, ps[..i]), modules, ps[i])
  {
    assert ps[..i + 1][..i] == ps[..i];
  }

  /** In a list of distinct patches, no key occurs before its own block. */
  lemma KeyNotEarlier(ps: seq<Patch>, i: nat)
    requires DistinctPatches(ps) && i < |ps|
    ensures ps[i].key !in KeysOf(ps[..i])
  {
    var pre := ps[..i];
    forall j | 0 <= j < |pre| ensures pre[j].key != ps[i].key {
      assert pre[j] == ps[j];
    }
  }

  /** The full install on a host that offers every site (section "Patched Functions" of patches.py). */
  lemma InstallFresh(st: InstallState, modules: set<string>, ps: seq<Patch>)
    requires !st.raised && DistinctPatches(ps) && FreshHost(st, modules, ps)
    ensures var r := Steps(st, modules, ps);
            && !r.raised
            && r.bindings.Keys == st.bindings.Keys
            && (forall j :: 0 <= j < |ps| ==>
                  && ps[j].key in r.originals && r.originals[ps[j].key] == st.bindings[ps[j].site]
                  && r.bindings[ps[j].site] == Wrapper(ps[j].key))
  {
    InstallFreshShape(st, modules, ps, |ps|);
    InstallFreshPrefix(st, modules, ps, |ps|);
    assert ps[..|ps|] == ps;
  }

  /**
   * A host that lacks one site (an older release without `get_csv_bytes`,
   * say): the blocks before it are installed, the install raises there, and
   * no later site is touched.
   */
  lemma InstallStopsAtMissingSite(st: InstallState, modules: set<string>, ps: seq<Patch>, i: nat)
    requires !st.raised && DistinctPatches(ps) && i < |ps|
    requires FreshHost(st, modules, ps[..i])
    requires ps[i].site.pkg in modules && ps[i].key !in st.originals && ps[i].site !in st.bindings
    ensures var r := Steps(st, modules, ps);
            && r.raised
            && r == Steps(st, modules, ps[..i]).(raised := true)
  {
    var pre := ps[..i];
    var r0 := Steps(st, modules, pre);
    assert !r0.raised && ps[i].key !in r0.originals && ps[i].site !in r0.bindings by {
      PrefixFresh(st, modules, ps, i);
    }
    assert ps[..i + 1][..i] == pre;
    assert Steps(st, modules, ps[..i + 1]) == r0.(raised := true);
    StepsAfterRaise(st, modules, ps, i + 1);
  }

  /** The blocks before a patch whose key is fresh leave that key unregistered. */
  lemma PrefixFresh(st: InstallState, modules: set<string>, ps: seq<Patch>, i: nat)
    requires !st.raised && DistinctPatches(ps) && i < |ps|
    requires FreshHost(st, modules, ps[..i])
    requires ps[i].key !in st.originals
    ensures var r := Steps(st, modules, ps[..i]);
            !r.raised && ps[i].key !in r.originals && r.bindings.Keys == st.bindings.Keys
  {
    var pre := ps[..i];
    assert DistinctPatches(pre);
    InstallFreshShape(st, modules, pre, i);
    assert pre[..i] == pre;
    assert ps[i].key !in KeysOf(pre);
  }

  /** The six patches of `apply_patches` target distinct keys and sites. */
  lemma PatchTableDistinct()
    ensures DistinctPatches(PatchTable)
  {
    var keys := seq(|PatchTable|, j requires 0 <= j < |PatchTable| => |PatchTable[j].key|);
    assert keys == [9, 19, 18, 13, 13, 24];
    assert PatchTable[3].key[0] != PatchTable[4].key[0];
    assert PatchTable[4].site.pkg != PatchTable[5].site.pkg by {
      assert PatchTable[4].site.pkg[12] != PatchTable[5].site.pkg[12];
    }
  }

  /** The installer: the `_applied` guard, the registry and the host's bindings. */
  class Installer {
    var applied: bool
    var originals: map<string, Fn>
    var bindings: map<Site, Fn>

    /** A host before any patching: the registry is empty. */
    constructor (host: map<Site, Fn>)
      ensures !applied && originals == map[] && bindings == host
    {
      applied := false;
      originals := map[];
      bindings := host;
    }

    function State(raised: bool): InstallState
      reads this
    {
      InstallState(originals, bindings, raised)
    }

    /** One block of `apply_patches`; `raised` reports the exception it would throw. */
    method PatchOne(modules: set<string>, p: Patch) returns (raised: bool)
      modifies this
      ensures State(raised) == Step(old(State(false)), modules, p)
      ensures applied == old(applied)
    {
      raised := false;
      if p.site.pkg !in modules {
        return true;
      }
      if p.key !in originals {
        if p.site !in bindings {
          return true;
        }
        originals := originals[p.key := bindings[p.site]];
        bindings := bindings[p.site := Wrapper(p.key)];
      }
    }

    /**
     * `apply_patches()`: does nothing once the guard is set; otherwise sets
     * it first and runs the six blocks until one raises.
     */
    method ApplyPatches(modules: set<string>) returns (raised: bool)
      modifies this
      ensures applied
      ensures old(applied) ==> !raised && originals == old(originals) && bindings == old(bindings)
      ensures !old(applied) ==> State(raised) == Steps(old(State(false)), modules, PatchTable)
    {
      if applied {
        return false;
      }
      applied := true;
      raised := RunBlocks(modules, PatchTable);
    }

    /** Runs the blocks of `ps` in order, stopping at the first that raises. */
    method RunBlocks(modules: set<string>, ps: seq<Patch>) returns (raised: bool)
      modifies this
      ensures applied == old(applied)
      ensures State(raised) == Steps(old(State(false)), modules, ps)
    {
      ghost var init := State(false);
      raised := false;
      var i := 0;
      while i < |ps| && !raised
        invariant 0 <= i <= |ps| && applied == old(applied)
        invariant State(raised) == Steps(init, modules, ps[..i])
      {
        assert ps[..i + 1][..i] == ps[..i];
        raised := PatchOne(modules, ps[i]);
        i := i + 1;
      }
      if raised {
        StepsAfterRaise(init, modules, ps, i);
      } else {
        assert ps[..i] == ps;
      }
    }

    /** `boot_session(bootinfo)`: apply the patches and hand `bootinfo` back, or raise. */
    method BootSession<T>(bootinfo: T, modules: set<string>) returns (r: Result<T>)
      modifies this
      ensures applied
      ensures r.Ok? ==> r.value == bootinfo
      ensures old(applied) ==> r == Ok(bootinfo) && originals == old(originals) && bindings == old(bindings)
      ensures !old(applied) ==>
                State(r.Err?) == Steps(old(State(false)), modules, PatchTable)
    {
      var raised := ApplyPatches(modules);
      if raised {
        return Err("apply_patches raised");
      }
      return Ok(bootinfo);
    }
  }

  // ---------------------------------------------------------------------
  // The data wrappers
  // ---------------------------------------------------------------------

  /**
   * The context the data wrappers render with: a non-empty override left
   * by a report-level export, else one built from the call's own name
   * (`sheet_name`, `filename` or the CSV doctype) as both names.
   */
  function ChosenContext(override: Option<Context>, seed: Value, env: Env): (ctx: Context)
    ensures override.Some? && override.value != map[] ==> ctx == override.value
    ensures override.None? || override.value == map[] ==> ctx.Keys == ContextKeys
  {
    if override.Some? && override.value != map[] then override.value else BuildContext(seed, seed, env)
  }

  /** Without an override, a truthy name of the call names both the doctype and the report. */
  lemma ChosenContextSeed(override: Option<Context>, seed: Value, env: Env)
    requires override.None? || override.value == map[]
    requires Truthy(seed)
    ensures ChosenContext(override, seed, env)["doctype"] == seed
    ensures ChosenContext(override, seed, env)["report_name"] == seed
  {
    FirstTruthyOfFour(seed, FormDoctype(env), seed, FormReportName(env), FormDoctype(env));
    FirstTruthyOfFour(seed, FormReportName(env), seed, FormDoctype(env), FormReportName(env));
  }

  /**
   * The data a wrapper hands to the original: unchanged when the feature
   * is off, else the letterhead rows followed by the data; an exception
   * from the row generator propagates.
   */
  function PreparedData(settings: Option<Settings>, override: Option<Context>, seed: Value,
                        data: Rows, env: Env, render: Renderer): (r: Result<Rows>)
    ensures !Enabled(settings) ==> r == Ok(data)
    ensures r.Ok? ==> |data| <= |r.value| && r.value[|r.value| - |data|..] == data
    ensures r.Err? ==> Enabled(settings) && env.companyDefault.None?
  {
    if !Enabled(settings) then Ok(data)
    else
      match LetterheadRows(settings, ChosenContext(override, seed, env), env, render)
      case Err(e) => Err(e)
      case Ok(rows) => if rows != [] then Ok(rows + data) else Ok(data)
  }

  /**
   * With the feature on and the company lookup working, the data follows
   * the letterhead rows directly, after their blank separator row.
   */
  lemma PreparedDataLayout(settings: Option<Settings>, override: Option<Context>, seed: Value,
                           data: Rows, env: Env, render: Renderer)
    requires Enabled(settings) && env.companyDefault.Some?
    ensures var lh := LetterheadRows(settings, ChosenContext(override, seed, env), env, render);
            var r := PreparedData(settings, override, seed, data, env, render);
            && lh.Ok? && r.Ok?
            && r.value == lh.value + data
            && (lh.value != [] ==> r.value[|lh.value| - 1] == [""])
  {
    var lh := LetterheadRows(settings, ChosenContext(override, seed, env), env, render);
    if lh.Ok? && lh.value == [] {
      assert lh.value + data == data;
    }
  }

  /** The override after a data wrapper: cleared once letterhead rows were generated, else kept. */
  function OverrideAfter(settings: Option<Settings>, override: Option<Context>, prepared: Result<Rows>): Option<Context> {
    if Enabled(settings) && prepared.Ok? then None else override
  }

  /** `_make_xlsx_with_letterhead`: the file the original builds, restyled when the feature is on. */
  function MakeXlsxResult(settings: Option<Settings>, override: Option<Context>, data: Rows, sheetName: string,
                          env: Env, render: Renderer, original: (Rows, string) -> Result<XlsxFile>,
                          failing: set<int>): (r: Result<XlsxFile>)
    ensures PreparedData(settings, override, VStr(sheetName), data, env, render).Err? ==> r.Err?
    ensures r.Ok? && Enabled(settings) ==> r.value.position == 0
  {
    match PreparedData(settings, override, VStr(sheetName), data, env, render)
    case Err(e) => Err(e)
    case Ok(d) =>
      match original(d, sheetName)
      case Err(e) => Err(e)
      case Ok(f) => Ok(if Enabled(settings) then RestyledFile(f, SettingsFont(settings.value), failing) else f)
  }

  /** With the feature off, `make_xlsx` behaves exactly as the host's own. */
  lemma MakeXlsxDisabled(settings: Option<Settings>, override: Option<Context>, data: Rows, sheetName: string,
                         env: Env, render: Renderer, original: (Rows, string) -> Result<XlsxFile>, failing: set<int>)
    requires !Enabled(settings)
    ensures MakeXlsxResult(settings, override, data, sheetName, env, render, original, failing) ==
            original(data, sheetName)
  {
  }

  /**
   * With the feature on, the original builds the sheet from the letterhead
   * rows and the data, and every row of a readable result that did not fail
   * carries the configured font, rewound to position 0.
   */
  lemma MakeXlsxStyled(settings: Option<Settings>, override: Option<Context>, data: Rows, sheetName: string,
                       env: Env, render: Renderer, original: (Rows, string) -> Result<XlsxFile>, failing: set<int>)
    requires Enabled(settings) && env.companyDefault.Some?
    ensures var lh := LetterheadRows(settings, ChosenContext(override, VStr(sheetName), env), env, render).value;
            var built := original(lh + data, sheetName);
            var r := MakeXlsxResult(settings, override, data, sheetName, env, render, original, failing);
            && (built.Err? ==> r == built)
            && (built.Ok? ==> r.Ok? && r.value.position == 0)
            && (built.Ok? && built.value.sheet.Some? ==>
                  r.value.sheet.Some? &&
                  forall i :: 0 <= i < |r.value.sheet.value.rows| && i + 1 !in failing ==>
                    RowStyled(r.value.sheet.value.rows[i], SettingsFont(settings.value)))
  {
    PreparedDataLayout(settings, override, VStr(sheetName), data, env, render);
  }

  /** The other data wrappers: the original called on the prepared data. */
  function CallWith<R>(prepared: Result<Rows>, call: Rows -> Result<R>): Result<R> {
    match prepared
    case Err(e) => Err(e)
    case Ok(d) => call(d)
  }

  /**
   * The seed name of `_get_csv_bytes_with_letterhead`: `csv_params["doctype"]`
   * when the parameters are a dict holding a truthy doctype, else "Export".
   */
  function CsvSeed(csvParams: Source): (seed: Value)
    ensures Truthy(seed)
    ensures csvParams.Some? && Truthy(Get(csvParams.value, "doctype")) ==> seed == csvParams.value["doctype"]
    ensures !(csvParams.Some? && Truthy(Get(csvParams.value, "doctype"))) ==> seed == VStr("Export")
  {
    if csvParams.Some? && Truthy(Get(csvParams.value, "doctype")) then Get(csvParams.value, "doctype")
    else VStr("Export")
  }

  /** The request-local state the wrappers share: `frappe.local.export_letterhead_context`. */
  class Exporter {
    var exportContext: Option<Context>

    constructor ()
      ensures exportContext == None
    {
      exportContext := None;
    }

    /**
     * The common body of the four data wrappers: pick the context, generate
     * the letterhead rows, prepend them, and clear the override.
     */
    method Prepare(settings: Option<Settings>, seed: Value, data: Rows, env: Env, render: Renderer)
      returns (r: Result<Rows>)
      modifies this
      ensures r == PreparedData(settings, old(exportContext), seed, data, env, render)
      ensures exportContext == OverrideAfter(settings, old(exportContext), r)
    {
      if !Enabled(settings) {
        return Ok(data);
      }
      var context: Context;
      if exportContext.Some? && exportContext.value != map[] {
        context := exportContext.value;
      } else {
        context := BuildContext(seed, seed, env);
      }
      var rows := GenerateLetterheadRows(settings, context, env, render);
      if rows.Err? {
        return Err(rows.reason);
      }
      r := Ok(data);
      if rows.value != [] {
        r := Ok(rows.value + data);
      }
      exportContext := None;
    }

    /** `_make_xlsx_with_letterhead(data, sheet_name)`; `failing` are the rows whose restyle raises. */
    method MakeXlsx(record: Option<RawSettings>, data: Rows, sheetName: string, env: Env, render: Renderer,
                    original: (Rows, string) -> Result<XlsxFile>, failing: set<int>)
      returns (r: Result<XlsxFile>)
      modifies this
      ensures r == MakeXlsxResult(GetSettings(record), old(exportContext), data, sheetName, env, render, original, failing)
      ensures exportContext == OverrideAfter(GetSettings(record), old(exportContext),
                                 PreparedData(GetSettings(record), old(exportContext), VStr(sheetName), data, env, render))
    {
      var settings := GetSettings(record);
      var prepared := Prepare(settings, VStr(sheetName), data, env, render);
      if prepared.Err? {
        return Err(prepared.reason);
      }
      r := original(prepared.value, sheetName);
      if r.Ok? && Enabled(settings) {
        var styled := ApplyFontToAllRows(r.value, settings.value, failing);
        r := Ok(styled);
      }
    }

    /** `_build_xlsx_response_with_letterhead(data, filename)`. */
    method BuildXlsxResponse<R>(record: Option<RawSettings>, data: Rows, filename: string, env: Env,
                                render: Renderer, original: (Rows, string) -> Result<R>)
      returns (r: Result<R>)
      modifies this
      ensures var prepared := PreparedData(GetSettings(record), old(exportContext), VStr(filename), data, env, render);
              && r == CallWith(prepared, d => original(d, filename))
              && exportContext == OverrideAfter(GetSettings(record), old(exportContext), prepared)
    {
      var prepared := Prepare(GetSettings(record), VStr(filename), data, env, render);
      if prepared.Err? {
        return Err(prepared.reason);
      }
      r := original(prepared.value, filename);
    }

    /** `_build_csv_response_with_letterhead(data, filename)`. */
    method BuildCsvResponse<R>(record: Option<RawSettings>, data: Rows, filename: string, env: Env,
                               render: Renderer, original: (Rows, string) -> Result<R>)
      returns (r: Result<R>)
      modifies this
      ensures var prepared := PreparedData(GetSettings(record), old(exportContext), VStr(filename), data, env, render);
              && r == CallWith(prepared, d => original(d, filename))
              && exportContext == OverrideAfter(GetSettings(record), old(exportContext), prepared)
    {
      var prepared := Prepare(GetSettings(record), VStr(filename), data, env, render);
      if prepared.Err? {
        return Err(prepared.reason);
      }
      r := original(prepared.value, filename);
    }

    /** `_get_csv_bytes_with_letterhead(data, csv_params)`. */
    method GetCsvBytes<R>(record: Option<RawSettings>, data: Rows, csvParams: Source, env: Env,
                          render: Renderer, original: (Rows, Source) -> Result<R>)
      returns (r: Result<R>)
      modifies this
      ensures var prepared := PreparedData(GetSettings(record), old(exportContext), CsvSeed(csvParams), data, env, render);
              && r == CallWith(prepared, d => original(d, csvParams))
              && exportContext == OverrideAfter(GetSettings(record), old(exportContext), prepared)
    {
      var prepared := Prepare(GetSettings(record), CsvSeed(csvParams), data, env, render);
      if prepared.Err? {
        return Err(prepared.reason);
      }
      r := original(prepared.value, csvParams);
    }

    /**
     * `_export_query_with_letterhead(form_params, csv_params,
     * populate_response)`: set the override for the report, call the
     * original (which sees the override), and clear it whatever happens.
     */
    method ExportQuery<R>(form: Source, csvParams: Source, populate: bool, env: Env,
                          refDoctype: Value -> Value,
                          original: (Source, Source, bool, Option<Context>) -> Result<R>)
      returns (r: Result<R>)
      modifies this
      ensures r == original(form, csvParams, populate, Some(QueryContext(form, env, refDoctype)))
      ensures exportContext == None
    {
      var name := GetParamValue(form, ["report_name", "report"], VNone);
      if !Truthy(name) {
        name := GetParamValue(env.formDict, ["report_name", "report"], VNone);
      }
      if !Truthy(name) {
        name := VStr("Query Report");
      }
      var ref := refDoctype(name);
      exportContext := Some(BuildContext(Or(ref, name), name, env));
      r := original(form, csvParams, populate, exportContext);
      exportContext := None;
    }

    /**
     * `_export_query_with_letterhead_reportview(form_params, csv_params,
     * populate_response)`: set the override only when the form names a
     * doctype, call the original, and clear the override whatever happens.
     */
    method ExportQueryReportview<R>(form: Source, csvParams: Source, populate: bool, env: Env,
                                    original: (Source, Source, bool, Option<Context>) -> Result<R>)
      returns (r: Result<R>)
      modifies this
      ensures r == original(form, csvParams, populate, ReportviewOverride(form, env, old(exportContext)))
      ensures exportContext == None
    {
      var doctype := GetParamValue(form, ["doctype"], VNone);
      var reportLabel := Or(GetParamValue(form, ["report_name", "title", "report"], VNone), doctype);
      if Truthy(doctype) {
        exportContext := Some(BuildContext(doctype, Or(reportLabel, doctype), env));
      }
      r := original(form, csvParams, populate, exportContext);
      exportContext := None;
    }
  }

  // ---------------------------------------------------------------------
  // The report-level wrappers
  // ---------------------------------------------------------------------

  /**
   * The report name `_export_query_with_letterhead` uses: from the form
   * parameters, else from the request's form, else "Query Report".
   */
  function ReportNameOf(form: Source, env: Env): (name: Value)
    ensures Truthy(name)
    ensures var a := GetParamValue(form, ["report_name", "report"], VNone);
            var b := GetParamValue(env.formDict, ["report_name", "report"], VNone);
            && (Truthy(a) ==> name == a)
            && (!Truthy(a) && Truthy(b) ==> name == b)
            && (!Truthy(a) && !Truthy(b) ==> name == VStr("Query Report"))
  {
    var a := GetParamValue(form, ["report_name", "report"], VNone);
    var b := GetParamValue(env.formDict, ["report_name", "report"], VNone);
    if Truthy(a) then a else if Truthy(b) then b else VStr("Query Report")
  }

  /** The override `_export_query_with_letterhead` sets. */
  function QueryContext(form: Source, env: Env, refDoctype: Value -> Value): (ctx: Context)
    ensures ctx.Keys == ContextKeys
  {
    var name := ReportNameOf(form, env);
    BuildContext(Or(refDoctype(name), name), name, env)
  }

  /**
   * The override names the report, and its doctype is the report's
   * reference doctype when it has one, else the report name.
   */
  lemma QueryContextNames(form: Source, env: Env, refDoctype: Value -> Value)
    ensures var name := ReportNameOf(form, env);
            var ctx := QueryContext(form, env, refDoctype);
            && ctx["report_name"] == name
            && ctx["doctype"] == (if Truthy(refDoctype(name)) then refDoctype(name) else name)
  {
    var name := ReportNameOf(form, env);
    var dt := Or(refDoctype(name), name);
    FirstTruthyOfFour(dt, FormDoctype(env), name, FormReportName(env), FormDoctype(env));
    FirstTruthyOfFour(name, FormReportName(env), dt, FormDoctype(env), FormReportName(env));
  }

  /** The override the original sees under `_export_query_with_letterhead_reportview`. */
  function ReportviewOverride(form: Source, env: Env, previous: Option<Context>): (o: Option<Context>)
    ensures o == previous || (o.Some? && o.value.Keys == ContextKeys)
  {
    var doctype := GetParamValue(form, ["doctype"], VNone);
    var reportLabel := Or(GetParamValue(form, ["report_name", "title", "report"], VNone), doctype);
    if Truthy(doctype) then Some(BuildContext(doctype, Or(reportLabel, doctype), env)) else previous
  }

  /**
   * A form that names a doctype yields an override with that doctype and
   * the form's report label (the doctype when there is none); a form
   * without one leaves the previous override in place.
   */
  lemma ReportviewOverrideNames(form: Source, env: Env, previous: Option<Context>)
    ensures var doctype := GetParamValue(form, ["doctype"], VNone);
            var reportLabel := GetParamValue(form, ["report_name", "title", "report"], VNone);
            var o := ReportviewOverride(form, env, previous);
            && (!Truthy(doctype) ==> o == previous)
            && (Truthy(doctype) ==>
                  && o.Some? && o.value["doctype"] == doctype
                  && o.value["report_name"] == (if Truthy(reportLabel) then reportLabel else doctype))
  {
    var doctype := GetParamValue(form, ["doctype"], VNone);
    var reportLabel := Or(GetParamValue(form, ["report_name", "title", "report"], VNone), doctype);
    var l2 := Or(reportLabel, doctype);
    FirstTruthyOfFour(doctype, FormDoctype(env), l2, FormReportName(env), FormDoctype(env));
    FirstTruthyOfFour(l2, FormReportName(env), doctype, FormDoctype(env), FormReportName(env));
  }
}
