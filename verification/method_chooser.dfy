/**
 * Backend selection (`chooseMethod` in dist/esnode/method-chooser.mjs).
 *
 * A backend is reduced to what the chooser looks at: its declared `type`
 * and the answer its `canBeUsed()` probe gives in the current runtime. The
 * runtime itself (`isNode`, and what each built-in backend's probe answers)
 * is the parameter `Env`.
 */
module MethodChooser {
  import opened Common

  /** A transport backend as the chooser sees it. */
  datatype Method = Method(kind: string, canBeUsed: bool)

  /** The runtime: whether it is Node, and what each built-in backend's `canBeUsed()` answers there. */
  datatype Env = Env(
    isNode: bool,
    nativeUsable: bool,
    idbUsable: bool,
    localstorageUsable: bool,
    nodeUsable: bool,
    simulateUsable: bool)

  /**
   * The options `chooseMethod` reads. `methods` is the caller's list with
   * falsy entries as None; `requestedType` is `options.type`.
   */
  datatype Options = Options(methods: seq<Option<Method>>, requestedType: Option<string>, webWorkerSupport: bool)

  /** The two errors `chooseMethod` throws. */
  datatype ChooseError =
    | MethodTypeNotFound(requested: string)
    | NoUseableMethod(listed: seq<string>)

  const NATIVE: string := "native"
  const IDB: string := "idb"
  const LOCALSTORAGE: string := "localstorage"
  const NODE: string := "node"
  const SIMULATE: string := "simulate"

  function NativeMethod(env: Env): Method { Method(NATIVE, env.nativeUsable) }
  function IndexedDbMethod(env: Env): Method { Method(IDB, env.idbUsable) }
  function LocalstorageMethod(env: Env): Method { Method(LOCALSTORAGE, env.localstorageUsable) }
  function NodeMethod(env: Env): Method { Method(NODE, env.nodeUsable) }
  function SimulateMethod(env: Env): Method { Method(SIMULATE, env.simulateUsable) }

  /** `METHODS`: the built-in defaults, fastest first. */
  function Defaults(env: Env): seq<Method> {
    [NativeMethod(env), IndexedDbMethod(env), LocalstorageMethod(env)]
  }

  /** The type names of `ms`, in order: what the error message collects from `METHODS` (line 42). */
  function Kinds(ms: seq<Method>): (r: seq<string>)
  {
    if ms == [] then [] else [ms[0].kind] + Kinds(ms[1..])
  }

  /** `filter(Boolean)`: the entries that are present, in order. */
  function Present(xs: seq<Option<Method>>): (r: seq<Method>)
    ensures |r| <= |xs|
    ensures forall m :: m in r <==> Some(m) in xs
  {
    if xs == [] then []
    else (if xs[0].Some? then [xs[0].value] else []) + Present(xs[1..])
  }

  /** Filtering out falsy entries commutes with concatenation. */
  lemma {:induction false} PresentAppend(xs: seq<Option<Method>>, ys: seq<Option<Method>>)
    ensures Present(xs + ys) == Present(xs) + Present(ys)
  {
    if xs == [] {
      assert xs + ys == ys;
    } else {
      assert (xs + ys)[1..] == xs[1..] + ys;
      PresentAppend(xs[1..], ys);
    }
  }

  /**
   * `chooseMethods` (lines 12-14): the caller's list joined with `METHODS`,
   * falsy entries dropped, and the Node backend pushed at the end. The
   * caller's backends come first, then the defaults in their fixed order,
   * then Node.
   */
  function Candidates(o: Options, env: Env): (r: seq<Method>)
    ensures r == Present(o.methods) + Defaults(env) + [NodeMethod(env)]
    ensures |r| == |Present(o.methods)| + 4 && r[|r| - 1] == NodeMethod(env)
  {
    var defaults := [Some(NativeMethod(env)), Some(IndexedDbMethod(env)), Some(LocalstorageMethod(env))];
    PresentAppend(o.methods, defaults);
    PresentDefaults(env);
    Present(o.methods + defaults) + [NodeMethod(env)]
  }

  /** Every entry of `METHODS` is truthy, so `filter(Boolean)` keeps all three. */
  lemma PresentDefaults(env: Env)
    ensures Present([Some(NativeMethod(env)), Some(IndexedDbMethod(env)), Some(LocalstorageMethod(env))]) == Defaults(env)
  {
    var d := [Some(NativeMethod(env)), Some(IndexedDbMethod(env)), Some(LocalstorageMethod(env))];
    assert d[1..] == [Some(IndexedDbMethod(env)), Some(LocalstorageMethod(env))];
    assert d[1..][1..] == [Some(LocalstorageMethod(env))];
    assert d[1..][1..][1..] == [];
  }

  /** Drops the backends whose type is `kind`, keeping the rest in order (lines 34-36). */
  function WithoutKind(ms: seq<Method>, kind: string): (r: seq<Method>)
  {
    if ms == [] then []
    else (if ms[0].kind != kind then [ms[0]] else []) + WithoutKind(ms[1..], kind)
  }

  /** The filter keeps exactly the entries of another kind, and never lengthens the list. */
  lemma {:induction false} WithoutKindMembers(ms: seq<Method>, kind: string)
    ensures |WithoutKind(ms, kind)| <= |ms|
    ensures forall m :: m in WithoutKind(ms, kind) <==> m in ms && m.kind != kind
  {
    if ms != [] {
      WithoutKindMembers(ms[1..], kind);
      assert ms == [ms[0]] + ms[1..];
    }
  }

  /** The filter keeps the survivors in their order: it commutes with concatenation. */
  lemma {:induction false} WithoutKindAppend(xs: seq<Method>, ys: seq<Method>, kind: string)
    ensures WithoutKind(xs + ys, kind) == WithoutKind(xs, kind) + WithoutKind(ys, kind)
  {
    if xs == [] {
      assert xs + ys == ys;
    } else {
      assert (xs + ys)[1..] == xs[1..] + ys;
      WithoutKindAppend(xs[1..], ys, kind);
    }
  }

  /** `options.type` is truthy: present and not the empty string. */
  predicate HasRequestedType(o: Options) {
    o.requestedType.Some? && o.requestedType.value != ""
  }

  predicate IsSimulateRequest(o: Options) {
    HasRequestedType(o) && o.requestedType.value == SIMULATE
  }

  /** The test the typed lookup applies: does the backend declare type `kind`? */
  function KindIs(kind: string): Method -> bool {
    (m: Method) => m.kind == kind
  }

  /** The test the automatic scan applies: the backend's own `canBeUsed()` answer. */
  const Usable: Method -> bool := (m: Method) => m.canBeUsed

  /** The candidates the usability scan walks: without `idb` when web-worker support is off outside Node. */
  function Remaining(o: Options, env: Env): (r: seq<Method>)
    ensures !o.webWorkerSupport && !env.isNode ==>
              forall m :: m in r <==> m in Candidates(o, env) && m.kind != IDB
    ensures o.webWorkerSupport || env.isNode ==> r == Candidates(o, env)
  {
    if !o.webWorkerSupport && !env.isNode then
      WithoutKindMembers(Candidates(o, env), IDB);
      WithoutKind(Candidates(o, env), IDB)
    else Candidates(o, env)
  }

  /** One unfolding of the filter on a list written as head and tail. */
  lemma WithoutKindCons(m: Method, ms: seq<Method>, kind: string)
    ensures WithoutKind([m] + ms, kind) == (if m.kind != kind then [m] else []) + WithoutKind(ms, kind)
  {
    assert ([m] + ms)[0] == m && ([m] + ms)[1..] == ms;
  }

  /** The filter applied to the built-in tail of the candidate list. */
  lemma BuiltinsWithoutIdb(env: Env)
    ensures WithoutKind(Defaults(env) + [NodeMethod(env)], IDB)
            == [NativeMethod(env), LocalstorageMethod(env), NodeMethod(env)]
  {
    var n, i, l, d := NativeMethod(env), IndexedDbMethod(env), LocalstorageMethod(env), NodeMethod(env);
    assert NATIVE[0] != IDB[0] && LOCALSTORAGE[0] != IDB[0] && NODE[0] != IDB[0];
    WithoutKindCons(d, [], IDB);
    assert [d] + [] == [d];
    assert WithoutKind([d], IDB) == [d];
    WithoutKindCons(l, [d], IDB);
    assert WithoutKind([l, d], IDB) == [l, d] by { assert [l] + [d] == [l, d]; }
    WithoutKindCons(i, [l, d], IDB);
    assert [i] + [l, d] == [i, l, d];
    assert WithoutKind([i, l, d], IDB) == [l, d];
    WithoutKindCons(n, [i, l, d], IDB);
    assert [n] + [i, l, d] == [n, i, l, d];
    assert WithoutKind([n, i, l, d], IDB) == [n, l, d] by { assert [n] + [l, d] == [n, l, d]; }
    assert Defaults(env) + [d] == [n, i, l, d];
  }

  /**
   * With web-worker support off outside Node, the remaining candidates are
   * the caller's non-idb backends in their order, then native, localstorage
   * and Node: the filter removes and never reorders.
   */
  lemma RemainingOrder(o: Options, env: Env)
    requires !o.webWorkerSupport && !env.isNode
    ensures Remaining(o, env)
            == WithoutKind(Present(o.methods), IDB) + [NativeMethod(env), LocalstorageMethod(env), NodeMethod(env)]
  {
    var tail := Defaults(env) + [NodeMethod(env)];
    assert Candidates(o, env) == Present(o.methods) + tail;
    WithoutKindAppend(Present(o.methods), tail, IDB);
    BuiltinsWithoutIdb(env);
  }

  /** `chooseMethod(options)`. */
  function ChooseMethod(o: Options, env: Env): (r: Result<Method, ChooseError>)
    // an explicit 'simulate' returns the simulate backend whatever the candidates are
    ensures IsSimulateRequest(o) ==> r == Ok(SimulateMethod(env))
    // any other explicit type: the first candidate declaring it, usable or not
    ensures HasRequestedType(o) && !IsSimulateRequest(o) ==>
              var c := Candidates(o, env);
              var t := o.requestedType.value;
              && (r.Ok? <==> exists i :: 0 <= i < |c| && c[i].kind == t)
              && (r.Ok? ==> exists i :: 0 <= i < |c| && r.value == c[i] && c[i].kind == t &&
                                       forall j :: 0 <= j < i ==> c[j].kind != t)
              && (r.Err? ==> r.error == MethodTypeNotFound(t))
    // no explicit type: the earliest remaining candidate whose probe succeeds
    ensures !HasRequestedType(o) ==>
              var c := Remaining(o, env);
              && (r.Ok? ==> exists i :: 0 <= i < |c| && r.value == c[i] && c[i].canBeUsed &&
                                       forall j :: 0 <= j < i ==> !c[j].canBeUsed)
              && (r.Err? <==> forall i :: 0 <= i < |c| ==> !c[i].canBeUsed)
              && (r.Err? ==> r.error == NoUseableMethod(Kinds(Defaults(env))))
  {
    if HasRequestedType(o) then
      var t := o.requestedType.value;
      if t == SIMULATE then Ok(SimulateMethod(env))
      else
        var c := Candidates(o, env);
        match FirstIndex(c, KindIs(t))
        case Some(i) => Ok(c[i])
        case None => Err(MethodTypeNotFound(t))
    else
      var c := Remaining(o, env);
      match FirstIndex(c, Usable)
      case Some(i) => Ok(c[i])
      case None => Err(NoUseableMethod(Kinds(Defaults(env))))
  }

  /**
   * The list the no-usable-backend error carries is the type names of
   * `METHODS` in their order, the same in every runtime.
   */
  lemma DefaultKindsListed(env: Env)
    ensures Kinds(Defaults(env)) == [NATIVE, IDB, LOCALSTORAGE]
  {
    var d := Defaults(env);
    assert d[1..] == [IndexedDbMethod(env), LocalstorageMethod(env)];
    assert d[1..][1..] == [LocalstorageMethod(env)];
    assert d[1..][1..][1..] == [];
    assert Kinds(d[1..][1..]) == [LOCALSTORAGE];
    assert Kinds(d[1..]) == [IDB, LOCALSTORAGE];
  }

  /** With web-worker support off outside Node, the durable `idb` backend is never auto-selected. */
  lemma NoIdbWithoutWebWorkerSupport(o: Options, env: Env)
    requires !HasRequestedType(o) && !o.webWorkerSupport && !env.isNode
    ensures ChooseMethod(o, env).Ok? ==> ChooseMethod(o, env).value.kind != IDB
  {
    var r := ChooseMethod(o, env);
    if r.Ok? {
      var c := Remaining(o, env);
      var i :| 0 <= i < |c| && r.value == c[i];
      assert c[i] in c;
    }
  }

  /**
   * The simulate backend is only ever the answer to an explicit request:
   * without one, and with no caller backend declaring that type, no result
   * has type 'simulate'.
   */
  lemma SimulateNeverAutoSelected(o: Options, env: Env)
    requires !IsSimulateRequest(o)
    requires forall m :: Some(m) in o.methods ==> m.kind != SIMULATE
    ensures ChooseMethod(o, env).Ok? ==> ChooseMethod(o, env).value.kind != SIMULATE
  {
    var r := ChooseMethod(o, env);
    if r.Ok? && !HasRequestedType(o) {
      ChosenIsCandidate(o, env);
      NoSimulateCandidate(o, env, r.value);
    }
  }

  /** Without an explicit type the chosen backend is one of the candidates. */
  lemma ChosenIsCandidate(o: Options, env: Env)
    requires !HasRequestedType(o)
    ensures ChooseMethod(o, env).Ok? ==> ChooseMethod(o, env).value in Candidates(o, env)
  {
    if ChooseMethod(o, env).Ok? {
      var c := Remaining(o, env);
      var i :| 0 <= i < |c| && ChooseMethod(o, env).value == c[i];
      assert c[i] in c;
    }
  }

  lemma NoSimulateCandidate(o: Options, env: Env, m: Method)
    requires forall m :: Some(m) in o.methods ==> m.kind != SIMULATE
    requires m in Candidates(o, env)
    ensures m.kind != SIMULATE
  {
    var p := Present(o.methods);
    var rest := Defaults(env) + [NodeMethod(env)];
    assert Candidates(o, env) == p + rest;
    if m in p {
      assert Some(m) in o.methods;
    } else {
      assert m in rest;
      assert rest == [NativeMethod(env), IndexedDbMethod(env), LocalstorageMethod(env), NodeMethod(env)];
    }
  }

  /** Two candidate lists that declare the same types, position by position. */
  predicate SameKinds(a: seq<Method>, b: seq<Method>) {
    |a| == |b| && forall i :: 0 <= i < |a| ==> a[i].kind == b[i].kind
  }

  lemma {:induction false} FirstKindSameKinds(a: seq<Method>, b: seq<Method>, t: string)
    requires SameKinds(a, b)
    ensures FirstIndex(a, KindIs(t)) == FirstIndex(b, KindIs(t))
  {
    if a != [] {
      assert a[0].kind == b[0].kind;
      if a[0].kind != t {
        assert SameKinds(a[1..], b[1..]) by {
          forall i | 0 <= i < |a[1..]| ensures a[1..][i].kind == b[1..][i].kind {
            assert a[1..][i] == a[i + 1];
            assert b[1..][i] == b[i + 1];
          }
        }
        FirstKindSameKinds(a[1..], b[1..], t);
      }
    }
  }

  /**
   * An explicit type bypasses every `canBeUsed()` probe: two setups whose
   * candidates declare the same types, however usable they are, succeed or
   * fail together and pick the candidate at the same position.
   */
  lemma TypedChoiceIgnoresUsability(o: Options, env: Env, o': Options, env': Env)
    requires HasRequestedType(o) && !IsSimulateRequest(o)
    requires o'.requestedType == o.requestedType
    requires SameKinds(Candidates(o, env), Candidates(o', env'))
    ensures ChooseMethod(o, env).Ok? <==> ChooseMethod(o', env').Ok?
    ensures ChooseMethod(o, env).Ok? ==>
              exists i :: 0 <= i < |Candidates(o, env)| &&
                          ChooseMethod(o, env).value == Candidates(o, env)[i] &&
                          ChooseMethod(o', env').value == Candidates(o', env')[i]
  {
    var t := o.requestedType.value;
    FirstKindSameKinds(Candidates(o, env), Candidates(o', env'), t);
    match FirstIndex(Candidates(o, env), KindIs(t))
    case Some(i) =>
      assert ChooseMethod(o, env).value == Candidates(o, env)[i];
    case None =>
  }

  /** A witness of the bypass: an explicitly requested `idb` is returned although its probe fails. */
  lemma TypedChoiceMayBeUnusable(env: Env)
    requires !env.idbUsable
    ensures ChooseMethod(Options([], Some(IDB), true), env) == Ok(Method(IDB, false))
  {
    var o := Options([], Some(IDB), true);
    var c := Candidates(o, env);
    assert c == [NativeMethod(env), IndexedDbMethod(env), LocalstorageMethod(env), NodeMethod(env)];
    assert c[0].kind != IDB;
  }
}
