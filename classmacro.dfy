/**
 * The `class` attribute macro: reading the `static_fields` and `interfaces` helper attributes
 * of a struct, clearing attributes on its type parameters, and naming the generated fields
 * struct. Rust syntax trees are modelled by the parts these rules inspect; parsing an
 * attribute's arguments is a parameter.
 */
module ClassMacro {
  import opened Primitives

  /** The token text of an attribute's arguments. */
  type Tokens = seq<string>

  /** One path segment: its identifier and whether it carries generic arguments. */
  datatype Segment = Segment(ident: string, hasArguments: bool)

  /** A path such as `static_fields`, `a::b` or `::c`. */
  datatype Path = Path(leadingColon: bool, segments: seq<Segment>)

  /** An attribute `#[path(args)]`. */
  datatype Attribute = Attribute(path: Path, args: Tokens)

  /** `Path::get_ident`: the identifier of a path that is one bare segment, else `None`. */
  function GetIdent(p: Path): (r: Option<string>)
    ensures r.Some? <==> !p.leadingColon && |p.segments| == 1 && !p.segments[0].hasArguments
    ensures r.Some? ==> r.value == p.segments[0].ident
  {
    if !p.leadingColon && |p.segments| == 1 && !p.segments[0].hasArguments then Some(p.segments[0].ident) else None
  }

  /** `parse_args::<Type>()`: the type the arguments spell, or a syntax error. */
  type ParseType = Tokens -> Option<string>

  /** `parse_args_with(Punctuated::<TypePath, Token![,]>::parse_terminated)`: the listed type paths, or a syntax error. */
  type ParsePaths = Tokens -> Option<seq<string>>

  /** `ClassAttributes`; the default has no static type and no interfaces. */
  datatype ClassAttributes = ClassAttributes(staticType: Option<string>, interfaces: seq<string>)

  const DEFAULT_ATTRIBUTES: ClassAttributes := ClassAttributes(None, [])

  /** `syn::parse::Result`: a value or a syntax error. */
  datatype SynResult<+T> = SynOk(value: T) | SynErr

  const STATIC_FIELDS: string := "static_fields"
  const INTERFACES: string := "interfaces"

  /** One iteration of the `process_attrs` loop on the attributes gathered so far. */
  function ProcessOne(parseType: ParseType, parsePaths: ParsePaths, acc: ClassAttributes, a: Attribute): (r: Outcome<SynResult<ClassAttributes>>)
    ensures GetIdent(a.path) == Some(STATIC_FIELDS) ==>
      r == Returns(if parseType(a.args).None? then SynErr else SynOk(acc.(staticType := parseType(a.args))))
    ensures GetIdent(a.path) == Some(INTERFACES) ==>
      r == (if parsePaths(a.args).None? then Panics else Returns(SynOk(acc.(interfaces := acc.interfaces + parsePaths(a.args).value))))
    ensures GetIdent(a.path) != Some(STATIC_FIELDS) && GetIdent(a.path) != Some(INTERFACES) ==> r == Returns(SynOk(acc))
  {
    match GetIdent(a.path)
    case None => Returns(SynOk(acc))
    case Some(ident) =>
      if ident == STATIC_FIELDS then
        match parseType(a.args)
        case None => Returns(SynErr)
        case Some(t) => Returns(SynOk(acc.(staticType := Some(t))))
      else if ident == INTERFACES then
        match parsePaths(a.args)
        case None => Panics
        case Some(paths) => Returns(SynOk(acc.(interfaces := acc.interfaces + paths)))
      else Returns(SynOk(acc))
  }

  /**
   * What `process_attrs` returns for `attrs`, in order: a syntax error in `static_fields`
   * returns at once (`?`), one in `interfaces` panics (`unwrap`).
   */
  function ProcessSpec(parseType: ParseType, parsePaths: ParsePaths, attrs: seq<Attribute>): (r: Outcome<SynResult<ClassAttributes>>)
    ensures r.Panics? ==> exists i :: 0 <= i < |attrs| && GetIdent(attrs[i].path) == Some(INTERFACES) && parsePaths(attrs[i].args).None?
    ensures r == Returns(SynErr) ==> exists i :: 0 <= i < |attrs| && GetIdent(attrs[i].path) == Some(STATIC_FIELDS) && parseType(attrs[i].args).None?
    ensures r.Returns? && r.value.SynOk? && r.value.value.staticType.Some? ==>
      exists i :: 0 <= i < |attrs| && GetIdent(attrs[i].path) == Some(STATIC_FIELDS) && parseType(attrs[i].args) == r.value.value.staticType
    decreases |attrs|
  {
    if |attrs| == 0 then Returns(SynOk(DEFAULT_ATTRIBUTES))
    else
      var prefix := attrs[..|attrs| - 1];
      assert forall i :: 0 <= i < |prefix| ==> prefix[i] == attrs[i];
      match ProcessSpec(parseType, parsePaths, prefix)
      case Panics => Panics
      case Returns(SynErr) => Returns(SynErr)
      case Returns(SynOk(acc)) => ProcessOne(parseType, parsePaths, acc, attrs[|attrs| - 1])
  }

  /**
   * `process_attrs`: a loop over the attributes updating one `ClassAttributes`. The attribute
   * list is only read.
   */
  method ProcessAttrs(parseType: ParseType, parsePaths: ParsePaths, attrs: seq<Attribute>) returns (r: Outcome<SynResult<ClassAttributes>>)
    ensures r == ProcessSpec(parseType, parsePaths, attrs)
  {
    var attributes := DEFAULT_ATTRIBUTES;
    var i := 0;
    while i < |attrs|
      invariant 0 <= i <= |attrs|
      invariant ProcessSpec(parseType, parsePaths, attrs[..i]) == Returns(SynOk(attributes))
    {
      assert attrs[..i + 1][..i] == attrs[..i];
      match ProcessOne(parseType, parsePaths, attributes, attrs[i])
      case Panics =>
        ProcessSpecStaysDone(parseType, parsePaths, attrs[..i + 1], attrs[i + 1..]);
        assert attrs[..i + 1] + attrs[i + 1..] == attrs;
        return Panics;
      case Returns(SynErr) =>
        ProcessSpecStaysDone(parseType, parsePaths, attrs[..i + 1], attrs[i + 1..]);
        assert attrs[..i + 1] + attrs[i + 1..] == attrs;
        return Returns(SynErr);
      case Returns(SynOk(next)) =>
        attributes := next;
      i := i + 1;
    }
    assert attrs[..i] == attrs;
    r := Returns(SynOk(attributes));
  }

  /** Once processing has panicked or failed, later attributes change nothing. */
  lemma {:induction false} ProcessSpecStaysDone(parseType: ParseType, parsePaths: ParsePaths, attrs: seq<Attribute>, more: seq<Attribute>)
    requires !ProcessSpec(parseType, parsePaths, attrs).Returns? || ProcessSpec(parseType, parsePaths, attrs).value.SynErr?
    ensures ProcessSpec(parseType, parsePaths, attrs + more) == ProcessSpec(parseType, parsePaths, attrs)
    decreases |more|
  {
    if |more| > 0 {
      var init := more[..|more| - 1];
      ProcessSpecStaysDone(parseType, parsePaths, attrs, init);
      var all := attrs + more;
      var before := all[..|all| - 1];
      assert before == attrs + init;
      var done := ProcessSpec(parseType, parsePaths, before);
      assert done == ProcessSpec(parseType, parsePaths, attrs);
      assert done.Panics? || done == Returns(SynErr);
      assert ProcessSpec(parseType, parsePaths, all) == done;
    } else {
      assert attrs + more == attrs;
    }
  }

  /** The index of the last `static_fields` attribute, if any. */
  function LastStaticFields(attrs: seq<Attribute>): (r: Option<nat>)
    ensures r.Some? ==> r.value < |attrs| && GetIdent(attrs[r.value].path) == Some(STATIC_FIELDS)
    ensures r.Some? ==> forall j :: r.value < j < |attrs| ==> GetIdent(attrs[j].path) != Some(STATIC_FIELDS)
    ensures r.None? <==> forall j :: 0 <= j < |attrs| ==> GetIdent(attrs[j].path) != Some(STATIC_FIELDS)
    decreases |attrs|
  {
    if |attrs| == 0 then None
    else if GetIdent(attrs[|attrs| - 1].path) == Some(STATIC_FIELDS) then Some(|attrs| - 1)
    else LastStaticFields(attrs[..|attrs| - 1])
  }

  /** The interfaces all `interfaces` attributes list, concatenated in attribute order. */
  function InterfacesOf(parsePaths: ParsePaths, attrs: seq<Attribute>): (r: seq<string>)
    ensures (forall i :: 0 <= i < |attrs| ==> GetIdent(attrs[i].path) != Some(INTERFACES)) ==> r == []
    ensures forall k :: 0 <= k < |r| ==> exists i :: 0 <= i < |attrs| && GetIdent(attrs[i].path) == Some(INTERFACES)
                                                   && parsePaths(attrs[i].args).Some? && r[k] in parsePaths(attrs[i].args).value
    decreases |attrs|
  {
    if |attrs| == 0 then []
    else
      var here := if GetIdent(attrs[0].path) == Some(INTERFACES) && parsePaths(attrs[0].args).Some?
        then parsePaths(attrs[0].args).value else [];
      here + InterfacesOf(parsePaths, attrs[1..])
  }

  lemma {:induction false} InterfacesOfAppend(parsePaths: ParsePaths, attrs: seq<Attribute>, a: Attribute)
    ensures InterfacesOf(parsePaths, attrs + [a]) == InterfacesOf(parsePaths, attrs) + InterfacesOf(parsePaths, [a])
    decreases |attrs|
  {
    if |attrs| > 0 {
      assert (attrs + [a])[1..] == attrs[1..] + [a];
      InterfacesOfAppend(parsePaths, attrs[1..], a);
    } else {
      assert attrs + [a] == [a];
    }
  }

  /**
   * On success, the static type comes from the last `static_fields` attribute (none without
   * one), and the interfaces are those of every `interfaces` attribute, in order.
   */
  lemma {:induction false} ProcessedAttributes(parseType: ParseType, parsePaths: ParsePaths, attrs: seq<Attribute>)
    requires ProcessSpec(parseType, parsePaths, attrs).Returns? && ProcessSpec(parseType, parsePaths, attrs).value.SynOk?
    ensures var a := ProcessSpec(parseType, parsePaths, attrs).value.value;
      && (LastStaticFields(attrs).None? ==> a.staticType.None?)
      && (LastStaticFields(attrs).Some? ==> a.staticType == parseType(attrs[LastStaticFields(attrs).value].args))
      && a.interfaces == InterfacesOf(parsePaths, attrs)
    decreases |attrs|
  {
    if |attrs| > 0 {
      var n := |attrs| - 1;
      var init := attrs[..n];
      ProcessedAttributes(parseType, parsePaths, init);
      assert init + [attrs[n]] == attrs;
      InterfacesOfAppend(parsePaths, init, attrs[n]);
      assert InterfacesOf(parsePaths, [attrs[n]])
        == (if GetIdent(attrs[n].path) == Some(INTERFACES) && parsePaths(attrs[n].args).Some?
            then parsePaths(attrs[n].args).value else []);
      if GetIdent(attrs[n].path) != Some(STATIC_FIELDS) {
        assert LastStaticFields(attrs) == LastStaticFields(init);
      }
    }
  }

  /** An attribute with another name, or whose path is not a bare identifier, is ignored. */
  lemma OtherAttributesIgnored(parseType: ParseType, parsePaths: ParsePaths, attrs: seq<Attribute>, a: Attribute)
    requires GetIdent(a.path) != Some(STATIC_FIELDS) && GetIdent(a.path) != Some(INTERFACES)
    ensures ProcessSpec(parseType, parsePaths, attrs + [a]) == ProcessSpec(parseType, parsePaths, attrs)
  {
    assert (attrs + [a])[..|attrs|] == attrs;
  }

  /** A bad `static_fields` argument is a syntax error; a bad `interfaces` argument panics. */
  lemma ParseFailures(parseType: ParseType, parsePaths: ParsePaths, a: Attribute)
    ensures GetIdent(a.path) == Some(STATIC_FIELDS) && parseType(a.args).None? ==>
      ProcessSpec(parseType, parsePaths, [a]) == Returns(SynErr)
    ensures GetIdent(a.path) == Some(INTERFACES) && parsePaths(a.args).None? ==>
      ProcessSpec(parseType, parsePaths, [a]) == Panics
  {
    assert [a][..0] == [];
  }

  /** `class` unwraps the result of `process_attrs`: a syntax error panics there. */
  function ClassAttributesOf(parseType: ParseType, parsePaths: ParsePaths, attrs: seq<Attribute>): (r: Outcome<ClassAttributes>)
    ensures r.Returns? <==> ProcessSpec(parseType, parsePaths, attrs).Returns? && ProcessSpec(parseType, parsePaths, attrs).value.SynOk?
    ensures r.Returns? ==> r.value == ProcessSpec(parseType, parsePaths, attrs).value.value
  {
    match ProcessSpec(parseType, parsePaths, attrs)
    case Returns(SynOk(a)) => Returns(a)
    case _ => Panics
  }

  /** A generic parameter of the struct: a type, a lifetime or a const parameter. */
  datatype GenericParam =
    | TypeParam(attrs: seq<Attribute>, ident: string, bounds: Tokens)
    | LifetimeParam(attrs: seq<Attribute>, lifetime: string, bounds: Tokens)
    | ConstParam(attrs: seq<Attribute>, ident: string, ty: string)

  /** What `strip_generics_attrs` leaves of one parameter. */
  function Stripped(p: GenericParam): (r: GenericParam)
    ensures p.TypeParam? ==> r == TypeParam([], p.ident, p.bounds)
    ensures !p.TypeParam? ==> r == p
  {
    match p
    case TypeParam(_, ident, bounds) => TypeParam([], ident, bounds)
    case _ => p
  }

  /** Stripping twice is stripping once. */
  lemma StrippedIdempotent(p: GenericParam)
    ensures Stripped(Stripped(p)) == Stripped(p)
  {
  }

  /**
   * `strip_generics_attrs`: clear the attributes of every type parameter in place; the
   * number, order and kinds of the parameters are kept.
   */
  method StripGenericsAttrs(params: array<GenericParam>)
    modifies params
    ensures forall i :: 0 <= i < params.Length ==> params[i] == Stripped(old(params[i]))
  {
    var i := 0;
    while i < params.Length
      invariant 0 <= i <= params.Length
      invariant forall k :: 0 <= k < i ==> params[k] == Stripped(old(params[k]))
      invariant forall k :: i <= k < params.Length ==> params[k] == old(params[k])
    {
      params[i] := Stripped(params[i]);
      i := i + 1;
    }
  }

  /** The name of the generated fields struct: the struct's name followed by `Fields`. */
  function FieldsName(name: string): (r: string)
    ensures |r| == |name| + 6
    ensures r[..|name|] == name && r[|name|..] == "Fields"
  {
    name + "Fields"
  }

  /** Different structs get different fields structs. */
  lemma FieldsNameInjective(a: string, b: string)
    requires FieldsName(a) == FieldsName(b)
    ensures a == b
  {
    assert a == FieldsName(a)[..|a|];
  }
}
