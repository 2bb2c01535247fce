/**
 * Auth metadata storage (src/data/attribute.rs).
 *
 * The identity returned by the authorization service is a protobuf `Struct`.
 * `process_metadata` flattens it into `(path, json text)` pairs, joining the keys
 * of nested structs with the escaped separator `\.`; `store_metadata` writes each
 * pair as the host property `kuadrant\.auth\.<path>`, stopping at the first write
 * the host refuses. `get_attribute` reads one host property and parses it.
 */
module Attribute {
  import opened Wrappers
  import opened ProxyWasm
  import Json

  const KuadrantNamespace: string := "kuadrant"

  /** The escaped path separator: a backslash followed by a dot. */
  const Separator: string := "\\."

  /** A protobuf `Value`: one of its kinds, or no kind set. A number is an f64 bit pattern. */
  datatype Value =
    | NullValue
    | NumberValue(bits: bv64)
    | StringValue(s: string)
    | BoolValue(b: bool)
    | StructValue(st: Struct)
    | ListValue(values: seq<Value>)
    | KindNotSet

  datatype Field = Field(key: string, value: Value)

  /** A protobuf `Struct`, its fields in the order the map iterates them. */
  datatype Struct = Struct(fields: seq<Field>)

  /** A flattened `(path, json text)` pair. */
  type Pair = (string, string)

  datatype PropertyError = Get(message: string) | Parse(message: string)

  /** The key of a field under `prefix`: the key itself at top level, else prefix, separator, key. */
  function JoinKey(prefix: string, key: string): (r: string)
    ensures prefix == "" ==> r == key
    ensures prefix != "" ==> r == prefix + Separator + key && |r| > |prefix|
  {
    if prefix == "" then key else prefix + Separator + key
  }

  /** The JSON value of a scalar field; struct, list and unset values have none. */
  function ToJson(v: Value): (j: Option<Json.Scalar>)
    ensures j.Some? <==> v.NullValue? || v.NumberValue? || v.StringValue? || v.BoolValue?
    ensures v.StringValue? ==> j == Some(Json.String(v.s))
    ensures v.BoolValue? ==> j == Some(Json.Bool(v.b))
    ensures v.NullValue? ==> j == Some(Json.Null)
    ensures v.NumberValue? ==> j == Some(Json.Number(v.bits))
  {
    match v
    case StringValue(s) => Some(Json.String(s))
    case BoolValue(b) => Some(Json.Bool(b))
    case NullValue => Some(Json.Null)
    case NumberValue(bits) => Some(Json.Number(bits))
    case _ => None
  }

  // ---------------------------------------------------------------------------
  // The flattening, as functions

  /** The pairs one field contributes under `prefix`. */
  function FieldPairs(f: Field, prefix: string, renderNumber: bv64 -> string): seq<Pair>
    decreases f, 0
  {
    var key := JoinKey(prefix, f.key);
    if f.value.StructValue? then
      FlattenUpTo(f.value.st, |f.value.st.fields|, key, renderNumber)
    else match ToJson(f.value)
      case Some(j) => [(key, Json.ToText(j, renderNumber))]
      case None => []
  }

  /** The pairs of the first `n` fields of `s`, in field order. */
  function FlattenUpTo(s: Struct, n: nat, prefix: string, renderNumber: bv64 -> string): seq<Pair>
    requires n <= |s.fields|
    decreases s, n
  {
    if n == 0 then [] else FlattenUpTo(s, n - 1, prefix, renderNumber) + FieldPairs(s.fields[n - 1], prefix, renderNumber)
  }

  function Flatten(s: Struct, prefix: string, renderNumber: bv64 -> string): seq<Pair>
  {
    FlattenUpTo(s, |s.fields|, prefix, renderNumber)
  }

  // ---------------------------------------------------------------------------
  // process_metadata

  /**
   * `process_metadata`: walks the fields in order, recursing into nested structs
   * and pushing one pair per scalar field.
   */
  method ProcessMetadata(s: Struct, prefix: string, renderNumber: bv64 -> string) returns (result: seq<Pair>)
    ensures result == Flatten(s, prefix, renderNumber)
    decreases s
  {
    result := [];
    for i := 0 to |s.fields|
      invariant result == FlattenUpTo(s, i, prefix, renderNumber)
    {
      var field := s.fields[i];
      var currentPrefix := if prefix == "" then field.key else prefix + Separator + field.key;
      var json: Option<Json.Scalar> :=
        match field.value
        case StringValue(str) => Some(Json.String(str))
        case BoolValue(b) => Some(Json.Bool(b))
        case NullValue => Some(Json.Null)
        case NumberValue(bits) => Some(Json.Number(bits))
        case _ => None;
      if field.value.StructValue? {
        var nested := ProcessMetadata(field.value.st, currentPrefix, renderNumber);
        result := result + nested;
      } else if json.Some? {
        result := result + [(currentPrefix, Json.ToText(json.value, renderNumber))];
      }
    }
  }

  // ---------------------------------------------------------------------------
  // The scalar leaves of a struct: the reference the flattening is checked against

  /** A scalar leaf: the keys from the top-level struct down to it, and its JSON value. */
  datatype Leaf = Leaf(path: seq<string>, json: Json.Scalar)

  /** `ls` with `key` put in front of every path. */
  function Under(key: string, ls: seq<Leaf>): (r: seq<Leaf>)
    ensures |r| == |ls|
    ensures forall i :: 0 <= i < |ls| ==> r[i] == Leaf([key] + ls[i].path, ls[i].json)
  {
    seq(|ls|, i requires 0 <= i < |ls| => Leaf([key] + ls[i].path, ls[i].json))
  }

  function FieldLeaves(f: Field): seq<Leaf>
    decreases f, 0
  {
    if f.value.StructValue? then Under(f.key, LeavesUpTo(f.value.st, |f.value.st.fields|))
    else match ToJson(f.value)
      case Some(j) => [Leaf([f.key], j)]
      case None => []
  }

  function LeavesUpTo(s: Struct, n: nat): seq<Leaf>
    requires n <= |s.fields|
    decreases s, n
  {
    if n == 0 then [] else LeavesUpTo(s, n - 1) + FieldLeaves(s.fields[n - 1])
  }

  /** Every scalar leaf of `s`, depth first in field order. */
  function Leaves(s: Struct): seq<Leaf>
  {
    LeavesUpTo(s, |s.fields|)
  }

  /** The flattened key of a path under `prefix`: `JoinKey` applied segment by segment. */
  function PathKey(prefix: string, path: seq<string>): string
    decreases |path|
  {
    if path == [] then prefix else PathKey(JoinKey(prefix, path[0]), path[1..])
  }

  /** The segments of a path joined by the separator. */
  function SeparatorJoin(path: seq<string>): string
    requires path != []
  {
    if |path| == 1 then path[0] else SeparatorJoin(path[..|path| - 1]) + Separator + path[|path| - 1]
  }

  function Render(ls: seq<Leaf>, prefix: string, renderNumber: bv64 -> string): (r: seq<Pair>)
    ensures |r| == |ls|
  {
    seq(|ls|, i requires 0 <= i < |ls| => (PathKey(prefix, ls[i].path), Json.ToText(ls[i].json, renderNumber)))
  }

  // ---------------------------------------------------------------------------
  // Properties of the flattening

  lemma RenderAppend(a: seq<Leaf>, b: seq<Leaf>, prefix: string, renderNumber: bv64 -> string)
    ensures Render(a + b, prefix, renderNumber) == Render(a, prefix, renderNumber) + Render(b, prefix, renderNumber)
  {
    var l, r := Render(a + b, prefix, renderNumber), Render(a, prefix, renderNumber) + Render(b, prefix, renderNumber);
    forall i | 0 <= i < |l| ensures l[i] == r[i] {
      if i >= |a| {
        assert (a + b)[i] == b[i - |a|];
      }
    }
  }

  lemma RenderUnder(key: string, ls: seq<Leaf>, prefix: string, renderNumber: bv64 -> string)
    ensures Render(Under(key, ls), prefix, renderNumber) == Render(ls, JoinKey(prefix, key), renderNumber)
  {
    var u := Under(key, ls);
    forall i | 0 <= i < |ls|
      ensures PathKey(prefix, u[i].path) == PathKey(JoinKey(prefix, key), ls[i].path)
    {
      assert u[i].path[0] == key && u[i].path[1..] == ls[i].path;
    }
  }

  /**
   * The flattening emits exactly one pair per scalar leaf, in leaf order: the key
   * is the leaf's path joined under the prefix, the value the leaf's JSON text.
   * Struct-valued fields emit no pair of their own, and list or unset values
   * contribute nothing.
   */
  lemma {:induction false} FieldPairsAreRenderedLeaves(f: Field, prefix: string, renderNumber: bv64 -> string)
    ensures FieldPairs(f, prefix, renderNumber) == Render(FieldLeaves(f), prefix, renderNumber)
    decreases f, 0
  {
    if f.value.StructValue? {
      var st := f.value.st;
      FlattenIsRenderedLeaves(st, |st.fields|, JoinKey(prefix, f.key), renderNumber);
      RenderUnder(f.key, LeavesUpTo(st, |st.fields|), prefix, renderNumber);
    } else {
      assert PathKey(prefix, [f.key]) == PathKey(JoinKey(prefix, f.key), []);
    }
  }

  lemma {:induction false} FlattenIsRenderedLeaves(s: Struct, n: nat, prefix: string, renderNumber: bv64 -> string)
    requires n <= |s.fields|
    ensures FlattenUpTo(s, n, prefix, renderNumber) == Render(LeavesUpTo(s, n), prefix, renderNumber)
    decreases s, n
  {
    if n > 0 {
      FlattenIsRenderedLeaves(s, n - 1, prefix, renderNumber);
      FieldPairsAreRenderedLeaves(s.fields[n - 1], prefix, renderNumber);
      RenderAppend(LeavesUpTo(s, n - 1), FieldLeaves(s.fields[n - 1]), prefix, renderNumber);
    }
  }

  /** The output of the flattening, pair by pair, and its length: one pair per scalar leaf. */
  lemma FlattenSpec(s: Struct, renderNumber: bv64 -> string)
    ensures |Flatten(s, "", renderNumber)| == |Leaves(s)|
    ensures forall i :: 0 <= i < |Leaves(s)| ==>
      Flatten(s, "", renderNumber)[i] == (PathKey("", Leaves(s)[i].path), Json.ToText(Leaves(s)[i].json, renderNumber))
  {
    FlattenIsRenderedLeaves(s, |s.fields|, "", renderNumber);
  }

  lemma {:induction false} PathKeySnoc(prefix: string, path: seq<string>, key: string)
    ensures PathKey(prefix, path + [key]) == JoinKey(PathKey(prefix, path), key)
    decreases |path|
  {
    if path == [] {
      assert PathKey(prefix, [key]) == PathKey(JoinKey(prefix, key), []);
    } else {
      assert (path + [key])[0] == path[0] && (path + [key])[1..] == path[1..] + [key];
      PathKeySnoc(JoinKey(prefix, path[0]), path[1..], key);
    }
  }

  lemma {:induction false} PathKeyNonEmpty(prefix: string, path: seq<string>)
    requires prefix != ""
    ensures PathKey(prefix, path) != ""
    decreases |path|
  {
    if path != [] {
      PathKeyNonEmpty(JoinKey(prefix, path[0]), path[1..]);
    }
  }

  /**
   * A leaf's key is its path joined with `\.` (a top-level key has no prefix),
   * whenever its top-level key is not empty. An empty top-level key of a nested
   * struct vanishes instead: its children are keyed as if they were top level.
   */
  lemma {:induction false} PathKeyIsSeparatorJoin(path: seq<string>)
    requires path != [] && path[0] != ""
    ensures PathKey("", path) == SeparatorJoin(path)
    decreases |path|
  {
    if |path| == 1 {
      assert PathKey("", path) == PathKey(path[0], []);
    } else {
      var init, last := path[..|path| - 1], path[|path| - 1];
      assert path == init + [last];
      PathKeySnoc("", init, last);
      PathKeyIsSeparatorJoin(init);
      assert init == [init[0]] + init[1..];
      PathKeyNonEmpty(init[0], init[1..]);
    }
  }

  lemma {:induction false} FlattenUpToPrefix(fs: seq<Field>, f: Field, n: nat, prefix: string, renderNumber: bv64 -> string)
    requires n <= |fs|
    ensures FlattenUpTo(Struct(fs + [f]), n, prefix, renderNumber) == FlattenUpTo(Struct(fs), n, prefix, renderNumber)
  {
    if n > 0 {
      FlattenUpToPrefix(fs, f, n - 1, prefix, renderNumber);
      assert (fs + [f])[n - 1] == fs[n - 1];
    }
  }

  /** A field added after others contributes its pairs after theirs, whatever the depths. */
  lemma FlattenAppendField(fs: seq<Field>, f: Field, prefix: string, renderNumber: bv64 -> string)
    ensures Flatten(Struct(fs + [f]), prefix, renderNumber)
         == Flatten(Struct(fs), prefix, renderNumber) + FieldPairs(f, prefix, renderNumber)
  {
    FlattenUpToPrefix(fs, f, |fs|, prefix, renderNumber);
    assert (fs + [f])[|fs|] == f;
  }

  // ---------------------------------------------------------------------------
  // The behaviour the unit tests of attribute.rs pin down

  function UserIdentity(): Struct
  {
    Struct([Field("identity", StructValue(Struct([Field("userid", StringValue("bob"))])))])
  }

  lemma MetadataOneNested(renderNumber: bv64 -> string)
    ensures Flatten(UserIdentity(), "", renderNumber) == [("identity\\.userid", "\"bob\"")]
  {
    var userid := Field("userid", StringValue("bob"));
    var inner := Struct([userid]);
    Json.QuotePlain("bob");
    assert JoinKey("identity", "userid") == "identity\\.userid";
    assert Json.ToText(Json.String("bob"), renderNumber) == "\"bob\"";
    assert FieldPairs(userid, "identity", renderNumber) == [("identity\\.userid", "\"bob\"")];
    assert FlattenUpTo(inner, 1, "identity", renderNumber) == [("identity\\.userid", "\"bob\"")];
    assert FieldPairs(UserIdentity().fields[0], "", renderNumber) == [("identity\\.userid", "\"bob\"")];
  }

  // ---------------------------------------------------------------------------
  // store_metadata and get_attribute

  /** The host property an auth metadata pair is stored under. */
  function AuthAttribute(key: string): (attr: string)
    ensures attr == KuadrantNamespace + Separator + "auth" + Separator + key
  {
    "kuadrant\\.auth\\." + key
  }

  /** The pairs with their keys turned into auth properties. */
  function AsAuthAttributes(pairs: seq<Pair>): (r: seq<Pair>)
    ensures |r| == |pairs|
    ensures forall i :: 0 <= i < |pairs| ==> r[i] == (AuthAttribute(pairs[i].0), pairs[i].1)
  {
    seq(|pairs|, i requires 0 <= i < |pairs| => (AuthAttribute(pairs[i].0), pairs[i].1))
  }

  /**
   * `set_attribute`: `setProperty` is the host, answering `None` when it stores the
   * property and `Some(status)` when it refuses.
   */
  function SetAttribute(attr: string, value: string, setProperty: (string, string) -> Option<string>): (r: Result<(), PropertyError>)
    ensures r.Ok? <==> setProperty(attr, value).None?
    ensures r.Err? ==> r.error == Get("set_attribute: error: " + setProperty(attr, value).value)
  {
    match setProperty(attr, value)
    case None => Ok(())
    case Some(status) => Err(Get("set_attribute: error: " + status))
  }

  /**
   * `store_metadata`: stores every flattened pair under `kuadrant\.auth\.`, in
   * order, and returns the first refusal without writing the pairs after it.
   * `stored` is what the host accepted, in the order it was written.
   */
  method StoreMetadata(s: Struct, renderNumber: bv64 -> string, setProperty: (string, string) -> Option<string>)
    returns (r: Result<(), PropertyError>, stored: seq<Pair>)
    ensures var pairs := Flatten(s, "", renderNumber);
      && |stored| <= |pairs|
      && stored == AsAuthAttributes(pairs[..|stored|])
      && (forall k :: 0 <= k < |stored| ==> setProperty(AuthAttribute(pairs[k].0), pairs[k].1).None?)
      && (r.Ok? <==> forall k :: 0 <= k < |pairs| ==> setProperty(AuthAttribute(pairs[k].0), pairs[k].1).None?)
      && (r.Ok? ==> |stored| == |pairs|)
      && (r.Err? ==>
            && |stored| < |pairs|
            && (var (key, value) := pairs[|stored|];
                && setProperty(AuthAttribute(key), value).Some?
                && r.error == Get("set_attribute: error: " + setProperty(AuthAttribute(key), value).value)))
  {
    var metadata := ProcessMetadata(s, "", renderNumber);
    stored := [];
    for i := 0 to |metadata|
      invariant stored == AsAuthAttributes(metadata[..i])
      invariant forall k :: 0 <= k < i ==> setProperty(AuthAttribute(metadata[k].0), metadata[k].1).None?
    {
      var (key, value) := metadata[i];
      var attr := "kuadrant\\.auth\\." + key;
      var written := SetAttribute(attr, value, setProperty);
      if written.Err? {
        return written, stored;
      }
      stored := stored + [(attr, value)];
      assert metadata[..i + 1] == metadata[..i] + [metadata[i]];
    }
    assert metadata[..|metadata|] == metadata;
    r := Ok(());
  }

  /**
   * `get_attribute`: `property` is the host's answer for the path (a value, no
   * value, or an error) and `parse` the attribute type's parser.
   */
  function GetAttribute<T>(property: Result<Option<Bytes>, string>, parse: Bytes -> Result<T, string>)
    : (r: Result<Option<T>, PropertyError>)
    ensures r == Ok(None) <==> property == Ok(None)
    ensures r.Err? && r.error.Get? <==> property.Err?
    ensures r.Err? && r.error.Parse? <==> property.Ok? && property.value.Some? && parse(property.value.value).Err?
    ensures r.Ok? && r.value.Some? ==> property.Ok? && property.value.Some? && parse(property.value.value) == Ok(r.value.value)
  {
    match property
    case Ok(Some(bytes)) =>
      (match parse(bytes)
       case Ok(v) => Ok(Some(v))
       case Err(e) => Err(Parse(e)))
    case Ok(None) => Ok(None)
    case Err(e) => Err(Get("get_attribute: error: " + e))
  }
}
