/**
 * The `hook`/`from_offset` attribute macros: counting the parameters a foreign method takes
 * from the Rust signature, choosing between that count and a forced one, and resolving the
 * method descriptor by class, name and arity.
 */
module Scan {
  import opened Primitives
  import opened Errors
  import opened Method
  import opened Class

  /** The pattern of a typed parameter: a plain identifier or anything else (tuples, `_`, ...). */
  datatype Pat = Ident(name: string) | OtherPat

  /** A function input: a `self` receiver or a typed parameter. */
  datatype FnArg = Receiver | Typed(pat: Pat)

  /** `&name[0..1]` needs a first character that is one UTF-8 byte; otherwise it panics. */
  predicate PanicsOn(arg: FnArg) {
    arg.Typed? && arg.pat.Ident? && (|arg.pat.name| == 0 || arg.pat.name[0] as int >= 0x80)
  }

  /** Names the count leaves out: `_`-prefixed, `method_info` and `this`. */
  predicate Excluded(name: string)
    requires |name| > 0
  {
    name[0] == '_' || name == "method_info" || name == "this"
  }

  /** A parameter that is counted: typed, a plain identifier, and not excluded. */
  predicate IsCounted(arg: FnArg) {
    arg.Typed? && arg.pat.Ident? && |arg.pat.name| > 0 && arg.pat.name[0] as int < 0x80 && !Excluded(arg.pat.name)
  }

  /** What one loop iteration of `get_fn_arg_count` adds to the count, or its panic. */
  function Counts(arg: FnArg): (r: Outcome<bool>)
    ensures r.Panics? <==> PanicsOn(arg)
    ensures r.Returns? ==> (r.value <==> IsCounted(arg))
  {
    match arg
    case Receiver => Returns(false)
    case Typed(OtherPat) => Returns(false)
    case Typed(Ident(name)) =>
      if |name| == 0 || name[0] as int >= 0x80 then Panics
      else Returns(!Excluded(name))
  }

  /** The count `get_fn_arg_count` computes over `inputs`, in order; a panic on any input is a panic. */
  function ArgCount(inputs: seq<FnArg>): (r: Outcome<nat>)
    ensures r.Panics? <==> exists i :: 0 <= i < |inputs| && PanicsOn(inputs[i])
    ensures r.Returns? ==> r.value <= |inputs|
    decreases |inputs|
  {
    if |inputs| == 0 then Returns(0)
    else
      var prefix := inputs[..|inputs| - 1];
      assert forall i :: 0 <= i < |prefix| ==> prefix[i] == inputs[i];
      match ArgCount(prefix)
      case Panics => Panics
      case Returns(n) =>
        match Counts(inputs[|inputs| - 1])
        case Panics => Panics
        case Returns(b) => Returns(if b then n + 1 else n)
  }

  /** The positions of the counted parameters. */
  function CountedPositions(inputs: seq<FnArg>): set<nat> {
    set i: nat | i < |inputs| && IsCounted(inputs[i])
  }

  /** The count is the number of parameters that are counted. */
  lemma {:induction false} ArgCountIsNumberCounted(inputs: seq<FnArg>)
    requires ArgCount(inputs).Returns?
    ensures ArgCount(inputs).value == |CountedPositions(inputs)|
    decreases |inputs|
  {
    if |inputs| > 0 {
      var n := |inputs| - 1;
      var prefix := inputs[..n];
      ArgCountIsNumberCounted(prefix);
      var before := CountedPositions(prefix);
      if IsCounted(inputs[n]) {
        assert CountedPositions(inputs) == before + {n};
        assert n !in before;
      } else {
        assert CountedPositions(inputs) == before;
      }
    }
  }

  /** Receivers and non-identifier patterns never change the count. */
  lemma SkippedArgs(inputs: seq<FnArg>)
    ensures ArgCount(inputs + [Receiver]) == ArgCount(inputs)
    ensures ArgCount(inputs + [Typed(OtherPat)]) == ArgCount(inputs)
  {
    assert (inputs + [Receiver])[..|inputs|] == inputs;
    assert (inputs + [Typed(OtherPat)])[..|inputs|] == inputs;
  }

  /** An excluded name never changes the count; any other ASCII-initial identifier adds one. */
  lemma NamedArg(inputs: seq<FnArg>, name: string)
    requires |name| > 0 && name[0] as int < 0x80
    requires ArgCount(inputs).Returns?
    ensures Excluded(name) ==> ArgCount(inputs + [Typed(Ident(name))]) == ArgCount(inputs)
    ensures !Excluded(name) ==> ArgCount(inputs + [Typed(Ident(name))]) == Returns(ArgCount(inputs).value + 1)
  {
    assert (inputs + [Typed(Ident(name))])[..|inputs|] == inputs;
  }

  /** A panic among the first `n` inputs is a panic for all of them. */
  lemma PrefixPanics(inputs: seq<FnArg>, n: nat)
    requires n <= |inputs| && ArgCount(inputs[..n]).Panics?
    ensures ArgCount(inputs).Panics?
  {
    var k :| 0 <= k < n && PanicsOn(inputs[..n][k]);
    assert inputs[k] == inputs[..n][k];
  }

  /** `get_fn_arg_count`: a loop over the inputs incrementing `count`. */
  method GetFnArgCount(inputs: seq<FnArg>) returns (r: Outcome<nat>)
    ensures r == ArgCount(inputs)
  {
    var count := 0;
    var i := 0;
    while i < |inputs|
      invariant 0 <= i <= |inputs|
      invariant ArgCount(inputs[..i]) == Returns(count)
    {
      assert inputs[..i + 1][..i] == inputs[..i];
      match Counts(inputs[i])
      case Panics =>
        PrefixPanics(inputs, i + 1);
        return Panics;
      case Returns(counted) =>
        if counted {
          count := count + 1;
        }
      i := i + 1;
    }
    assert inputs[..i] == inputs;
    r := Returns(count);
  }

  /** The arity `get_scan_fn` emits as `ARG_COUNT`: the forced count unless it is 0 (the default). */
  function ChosenArgCount(forced: nat, computed: nat): (n: nat)
    ensures forced != 0 ==> n == forced
    ensures forced == 0 ==> n == computed
  {
    if forced == 0 then computed else forced
  }

  /** An arity of 0 cannot be forced: 0 comes out only when the computed count is 0. */
  lemma ZeroCannotBeForced(forced: nat, computed: nat)
    ensures ChosenArgCount(forced, computed) == 0 <==> forced == 0 && computed == 0
  {
  }

  /** `ScanInfo(namespace, class, method, forced_arg_count)`. */
  datatype ScanInfo = ScanInfo(namespace: string, className: string, methodName: string, forcedArgCount: nat)

  /**
   * The `INFO` initialiser: the class by name (`expect` panics on an error), then its method
   * by name with `ARG_COUNT` parameters (`expect` again).
   */
  function ResolveInfo(classLookup: ClassFromName, asms: seq<Assembly>, methodLookup: MethodFromName, info: ScanInfo, computed: nat): (r: Outcome<MethodInfo>)
    ensures r.Returns? ==> exists c :: GetClassFromName(classLookup, asms, info.namespace, info.className) == Returns(Ok(c))
                                      && methodLookup(c, info.methodName, ChosenArgCount(info.forcedArgCount, computed), 0) == Some(r.value)
    ensures r.Returns? <==> exists c :: GetClassFromName(classLookup, asms, info.namespace, info.className) == Returns(Ok(c))
                                        && !HasNul(info.methodName)
                                        && methodLookup(c, info.methodName, ChosenArgCount(info.forcedArgCount, computed), 0).Some?
  {
    match GetClassFromName(classLookup, asms, info.namespace, info.className)
    case Panics => Panics
    case Returns(Err(_)) => Panics
    case Returns(Ok(c)) =>
      match GetMethodFromName(methodLookup, c, info.methodName, ChosenArgCount(info.forcedArgCount, computed))
      case Returns(Ok(m)) => Returns(m)
      case _ => Panics
  }

  /** `as_base`: a `new_from` copy of the resolved descriptor. */
  function AsBase(classLookup: ClassFromName, asms: seq<Assembly>, methodLookup: MethodFromName, info: ScanInfo, computed: nat): (r: Outcome<MethodInfo>)
    ensures r.Panics? <==> ResolveInfo(classLookup, asms, methodLookup, info, computed).Panics?
    ensures r.Returns? ==> ResetFieldsZero(r.value)
                           && SameUnresetFields(r.value, ResolveInfo(classLookup, asms, methodLookup, info, computed).value)
  {
    match ResolveInfo(classLookup, asms, methodLookup, info, computed)
    case Panics => Panics
    case Returns(m) => Returns(NewFrom(m))
  }
}
