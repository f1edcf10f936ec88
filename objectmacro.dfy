/**
 * The `object` attribute macro: a struct with named fields gets the two header fields of a
 * managed object, `klass` and `monitor`, in front of its own fields.
 */
module ObjectMacro {

  /** A named field: its name and the token text of its type. */
  datatype Field = Field(name: string, ty: string)

  const KLASS: Field := Field("klass", "*const u8")
  const MONITOR: Field := Field("monitor", "*const u8")

  /** `FieldsNamed`: the braced field list of a struct, edited in place by the macro. */
  class FieldsNamed {
    var named: seq<Field>

    constructor (named: seq<Field>)
      ensures this.named == named
    {
      this.named := named;
    }
  }

  /** The field list `inject_record_fields` produces from `fields`. */
  function Injected(fields: seq<Field>): (r: seq<Field>)
    ensures |r| == |fields| + 2
    ensures r[0] == KLASS && r[1] == MONITOR
    ensures r[2..] == fields
  {
    [KLASS, MONITOR] + fields
  }

  /** The header fields can be told apart from the original ones again: injection is injective. */
  lemma InjectedInjective(a: seq<Field>, b: seq<Field>)
    requires Injected(a) == Injected(b)
    ensures a == b
  {
    assert a == Injected(a)[2..];
  }

  /**
   * `inject_record_fields`: take the original fields out (`mem::take`), append them to a
   * fresh `{ klass, monitor }` list and store that list back.
   */
  method InjectRecordFields(fields: FieldsNamed)
    modifies fields
    ensures fields.named == Injected(old(fields.named))
  {
    var newFields := [KLASS, MONITOR];
    var taken := fields.named;
    fields.named := [];
    newFields := newFields + taken;
    fields.named := newFields;
  }

  /** The field shapes a struct can have. */
  datatype StructFields = Named(fields: seq<Field>) | Unnamed(types: seq<string>) | Unit

  datatype ItemStruct = ItemStruct(name: string, fields: StructFields)

  /** The macro's output: the rewritten struct or a `compile_error!`. */
  datatype Expansion = Struct(item: ItemStruct) | CompileError(message: string)

  const NOT_NAMED: string := "The structure is does not contain named arguments"

  /**
   * `object`: a struct with named fields comes back with `klass` and `monitor` prepended and
   * everything else unchanged; a tuple or unit struct becomes a compile error.
   */
  method Object(input: ItemStruct) returns (r: Expansion)
    ensures input.fields.Named? ==> r.Struct? && r.item.name == input.name && r.item.fields == Named(Injected(input.fields.fields))
    ensures !input.fields.Named? ==> r == CompileError(NOT_NAMED)
  {
    match input.fields
    case Named(named) =>
      var f := new FieldsNamed(named);
      InjectRecordFields(f);
      r := Struct(input.(fields := Named(f.named)));
    case _ =>
      r := CompileError(NOT_NAMED);
  }
}
