/**
 * The note form: its validation schema, written as data the way the schema
 * library chains its tests, the validity each field's tests amount to, the
 * initial values, and the form state that a submit hands on and then resets.
 */
module NoteForm {
  import opened Text
  import opened Note

  /** The form's three fields, all strings as the inputs deliver them. */
  datatype NoteFormValues = NoteFormValues(title: string, content: string, tag: string)

  datatype Field = TitleField | ContentField | TagField

  /**
   * One test of a string schema; lengths are JavaScript lengths (UTF-16 code units).
   * The form hands an empty input to the schema as `undefined`: the length tests
   * then pass and only `required` (here `NonEmpty`) rejects it. Applying the length
   * tests to `""` instead gives every field the same outcome: an empty title fails
   * (as `required` and as `min(3)`), an empty content passes `max(500)`.
   */
  datatype StringTest = MinLength(min: nat) | MaxLength(max: nat) | NonEmpty

  /**
   * A field's schema: a string schema with its chain of tests, or a closed set of
   * allowed literals. The tag comes from a select whose every option is one of the
   * literals, so it is never empty and `required` on it adds no test here.
   */
  datatype FieldSchema = StringSchema(tests: seq<StringTest>) | OneOf(allowed: seq<string>)

  function PassesTest(t: StringTest, s: string): bool {
    match t
    case MinLength(min) => Utf16Length(s) >= min
    case MaxLength(max) => Utf16Length(s) <= max
    case NonEmpty => Utf16Length(s) > 0
  }

  /** A chain of tests accepts a value when every test in it does. */
  function PassesAll(tests: seq<StringTest>, s: string): (b: bool)
    ensures b <==> forall i :: 0 <= i < |tests| ==> PassesTest(tests[i], s)
    decreases |tests|
  {
    if tests == [] then true
    else PassesTest(tests[0], s) && PassesAll(tests[1..], s)
  }

  function Accepts(schema: FieldSchema, s: string): bool {
    match schema
    case StringSchema(tests) => PassesAll(tests, s)
    case OneOf(allowed) => s in allowed
  }

  /** title: min(3), max(50), required. */
  const TitleSchema: FieldSchema := StringSchema([MinLength(3), MaxLength(50), NonEmpty])

  /** content: max(500). */
  const ContentSchema: FieldSchema := StringSchema([MaxLength(500)])

  /** tag: one of the five literals, required. */
  const TagSchema: FieldSchema := OneOf(TagNames)

  function SchemaOf(f: Field): FieldSchema {
    match f
    case TitleField => TitleSchema
    case ContentField => ContentSchema
    case TagField => TagSchema
  }

  function ValueOf(v: NoteFormValues, f: Field): string {
    match f
    case TitleField => v.title
    case ContentField => v.content
    case TagField => v.tag
  }

  /** What the field tests amount to, said directly. */
  predicate TitleValid(title: string) {
    3 <= Utf16Length(title) <= 50
  }

  predicate ContentValid(content: string) {
    Utf16Length(content) <= 500
  }

  predicate TagValid(tag: string) {
    ParseTag(tag).Some?
  }

  predicate FormValid(v: NoteFormValues) {
    TitleValid(v.title) && ContentValid(v.content) && TagValid(v.tag)
  }

  /** The fields the schema rejects: each exactly when its direct validity fails. */
  function Validate(v: NoteFormValues): (errors: set<Field>)
    ensures TitleField in errors <==> !TitleValid(v.title)
    ensures ContentField in errors <==> !ContentValid(v.content)
    ensures TagField in errors <==> !TagValid(v.tag)
    ensures errors == {} <==> FormValid(v)
  {
    var errors := set f: Field | !Accepts(SchemaOf(f), ValueOf(v, f));
    assert TitleField in errors <==> !PassesAll(TitleSchema.tests, v.title);
    assert ContentField in errors <==> !PassesAll(ContentSchema.tests, v.content);
    assert TagValid(v.tag) <==> v.tag in TagNames;
    assert TagField in errors <==> v.tag !in TagNames;
    assert !FormValid(v) ==> errors != {} by {
      if !TitleValid(v.title) { assert TitleField in errors; }
      else if !ContentValid(v.content) { assert ContentField in errors; }
      else if !TagValid(v.tag) { assert TagField in errors; }
    }
    errors
  }

  /** The values the form starts with and returns to after a submit. */
  const InitialValues: NoteFormValues := NoteFormValues("", "", "Todo")

  /** The initial tag and content pass, but the empty title fails, so the initial form is invalid. */
  lemma InitialValuesRejected()
    ensures TagValid(InitialValues.tag) && ContentValid(InitialValues.content)
    ensures !FormValid(InitialValues)
    ensures Validate(InitialValues) == {TitleField}
  {
  }

  /** The form state: the values currently in the three inputs. */
  class NoteFormState {
    var values: NoteFormValues

    constructor()
      ensures values == InitialValues
    {
      values := InitialValues;
    }

    /** An edit of one input, as the field bindings apply it; the other fields keep their values. */
    method Change(f: Field, s: string)
      modifies this
      ensures ValueOf(values, f) == s
      ensures forall g :: g != f ==> ValueOf(values, g) == ValueOf(old(values), g)
    {
      match f
      case TitleField => values := values.(title := s);
      case ContentField => values := values.(content := s);
      case TagField => values := values.(tag := s);
    }

    /** `handleSubmit`: hands the current values on unchanged, then resets the form. */
    method HandleSubmit() returns (emitted: NoteFormValues)
      modifies this
      ensures emitted == old(values)
      ensures values == InitialValues
    {
      emitted := values;
      values := InitialValues;
    }
  }
}
