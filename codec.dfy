/**
 * The schema-driven codec: `ApiStruct.to_dict` (through `enum_dict_factory`),
 * `ApiStruct.from_dict`, `ApiResp.from_dict`, and the generated dataclass
 * constructor that `from_dict` ends with. Every operation reads the field
 * declarations from a table `decls`; `Api.Fields` is the table of alapi.py.
 */
module Codec {
  import opened Wrappers
  import opened Wire
  import opened Api

  /**
   * What a dataclass field holds in memory. Python checks no types, so any
   * field may hold any of these: a plain value, an enumeration member, a
   * record, or a list of records.
   */
  datatype FVal = Raw(v: Value) | Member(e: Variant) | Sub(r: Record) | Subs(rs: seq<Record>)

  /** A dataclass instance: its class and its fields, named, in the order the instance has them. */
  datatype Record = Record(ty: RecType, fields: seq<(string, FVal)>)

  /** The instance has exactly the declared fields of its class, in declaration order. */
  predicate Conforms(decls: Decls, r: Record) {
    var fs := decls(r.ty);
    |r.fields| == |fs| && forall i :: 0 <= i < |fs| ==> r.fields[i].0 == fs[i].name
  }

  function NameSet(fs: seq<FieldDesc>): set<string> {
    set i | 0 <= i < |fs| :: fs[i].name
  }

  // ---------------------------------------------------------------- to_dict

  /**
   * `dataclasses.asdict(self, dict_factory=enum_dict_factory)`: one entry per
   * field in field order, nested records and lists of records converted in
   * turn, enumeration members replaced by their `.value`.
   */
  function ToDict(r: Record): (v: Value)
    ensures v.Dict? && |v.entries| == |r.fields|
    ensures forall i :: 0 <= i < |r.fields| ==> v.entries[i].0 == r.fields[i].0
    decreases r
  {
    Dict(seq(|r.fields|, i requires 0 <= i < |r.fields| => (r.fields[i].0, FieldToWire(r.fields[i].1))))
  }

  function FieldToWire(f: FVal): Value
    decreases f
  {
    match f
    case Raw(v) => v
    case Member(e) => Str(WireString(e))
    case Sub(r) => ToDict(r)
    case Subs(rs) => List(seq(|rs|, i requires 0 <= i < |rs| => ToDict(rs[i])))
  }

  /**
   * Serialising emits each field under its own name, at its own position: an
   * enumeration member as its wire string, a record as its dict, a list of
   * records as the list of their dicts, anything else unchanged.
   */
  lemma ToDictEntry(r: Record, i: nat)
    requires i < |r.fields|
    ensures ToDict(r).entries[i].0 == r.fields[i].0
    ensures r.fields[i].1.Member? ==> ToDict(r).entries[i].1 == Str(WireString(r.fields[i].1.e))
    ensures r.fields[i].1.Raw? ==> ToDict(r).entries[i].1 == r.fields[i].1.v
    ensures r.fields[i].1.Sub? ==> ToDict(r).entries[i].1 == ToDict(r.fields[i].1.r)
    ensures r.fields[i].1.Subs? ==>
      var rs := r.fields[i].1.rs;
      && ToDict(r).entries[i].1.List? && |ToDict(r).entries[i].1.items| == |rs|
      && forall j :: 0 <= j < |rs| ==> ToDict(r).entries[i].1.items[j] == ToDict(rs[j])
  {
  }

  /** A conforming record serialises to a dict with one entry per declared field and no repeated key. */
  lemma ToDictKeys(decls: Decls, r: Record)
    requires ValidDecls(decls) && Conforms(decls, r)
    ensures DistinctKeys(ToDict(r).entries)
    ensures KeySet(ToDict(r).entries) == NameSet(decls(r.ty))
  {
    assert WellFormedDecl(r.ty, decls(r.ty));
    var es := ToDict(r).entries;
    forall k | k in NameSet(decls(r.ty)) ensures k in KeySet(es) {
      var i :| 0 <= i < |decls(r.ty)| && decls(r.ty)[i].name == k;
      assert es[i].0 == k;
    }
  }

  // ------------------------------------------------------ the constructor

  function InitNames(decls: Decls, t: RecType): set<string> {
    var fs := decls(t);
    set i | 0 <= i < |fs| && fs[i].init :: fs[i].name
  }

  function RequiredNames(decls: Decls, t: RecType): set<string> {
    var fs := decls(t);
    set i | 0 <= i < |fs| && fs[i].init && fs[i].default.Required? :: fs[i].name
  }

  /** The value a field gets when the constructor is not given one. */
  function DefaultOf(f: FieldDesc): FVal {
    match f.default
    case DefaultValue(v) => Raw(v)
    case DefaultFactory(e) => Member(DefaultVariant(e))
    case Required => Raw(Null) // not reached: a required parameter must be passed, and `init=False` fields have defaults
  }

  /**
   * The generated `__init__`, called with keyword arguments: an unexpected
   * keyword (an `init=False` field among them) or a missing required one is
   * a TypeError; otherwise every field is set, from its argument or its default.
   */
  function Construct(decls: Decls, t: RecType, kwargs: map<string, FVal>): (r: Result<Record, Exc>)
    ensures r.Ok? <==> kwargs.Keys <= InitNames(decls, t) && RequiredNames(decls, t) <= kwargs.Keys
    ensures r.Err? ==> r.error == TypeError
    ensures r.Ok? ==> r.value.ty == t && Conforms(decls, r.value)
  {
    if !(kwargs.Keys <= InitNames(decls, t)) then Err(TypeError)
    else if !(RequiredNames(decls, t) <= kwargs.Keys) then Err(TypeError)
    else
      var fs := decls(t);
      Ok(Record(t, seq(|fs|, i requires 0 <= i < |fs| =>
        (fs[i].name, if fs[i].init && fs[i].name in kwargs then kwargs[fs[i].name] else DefaultOf(fs[i])))))
  }

  /** A successful construction keeps every argument under its name and gives every other field its default. */
  lemma ConstructFields(decls: Decls, t: RecType, kwargs: map<string, FVal>, i: nat)
    requires ValidDecls(decls)
    requires Construct(decls, t, kwargs).Ok? && i < |decls(t)|
    ensures var f := decls(t)[i];
      Construct(decls, t, kwargs).value.fields[i].1 == if f.name in kwargs then kwargs[f.name] else DefaultOf(f)
  {
    var fs := decls(t);
    if fs[i].name in kwargs {
      assert fs[i].init by {
        assert fs[i].name in InitNames(decls, t);
        var j :| 0 <= j < |fs| && fs[j].init && fs[j].name == fs[i].name;
        assert WellFormedDecl(t, fs);
      }
    }
  }

  // -------------------------------------------------------------- from_dict

  /** `get_type_hints(cls).get(name)`: the kind of the declared field called `name`, if any. */
  function KindOf(decls: Decls, t: RecType, name: string): Option<Kind> {
    FindKind(decls(t), name)
  }

  function FindKind(fs: seq<FieldDesc>, name: string): (r: Option<Kind>)
    ensures r.None? <==> name !in NameSet(fs)
    decreases |fs|
  {
    if fs == [] then None
    else if fs[0].name == name then Some(fs[0].kind)
    else
      var r := FindKind(fs[1..], name);
      assert NameSet(fs) == {fs[0].name} + NameSet(fs[1..]) by {
        forall n | n in NameSet(fs) ensures n in {fs[0].name} + NameSet(fs[1..]) {
          var i :| 0 <= i < |fs| && fs[i].name == n;
          if i > 0 { assert fs[1..][i - 1] == fs[i]; }
        }
        forall n | n in NameSet(fs[1..]) ensures n in NameSet(fs) {
          var i :| 0 <= i < |fs[1..]| && fs[1..][i].name == n;
          assert fs[i + 1] == fs[1..][i];
        }
      }
      r
  }

  lemma {:induction false} FindKindAt(fs: seq<FieldDesc>, i: nat)
    requires DistinctNames(fs) && i < |fs|
    ensures FindKind(fs, fs[i].name) == Some(fs[i].kind)
    decreases |fs|
  {
    if i > 0 {
      assert fs[0].name != fs[i].name;
      var rest := fs[1..];
      assert rest[i - 1] == fs[i];
      assert DistinctNames(rest) by {
        forall a, b | 0 <= a < b < |rest| ensures rest[a].name != rest[b].name {
          assert rest[a] == fs[a + 1] && rest[b] == fs[b + 1];
        }
      }
      FindKindAt(rest, i - 1);
    }
  }

  /** The hint found for a declared field's name is that field's own. */
  lemma KindOfField(decls: Decls, t: RecType, i: nat)
    requires ValidDecls(decls) && i < |decls(t)|
    ensures KindOf(decls, t, decls(t)[i].name) == Some(decls(t)[i].kind)
  {
    assert WellFormedDecl(t, decls(t));
    FindKindAt(decls(t), i);
  }

  /** `**item`: a dict's entries as keyword arguments. */
  function Kwargs(es: seq<(string, Value)>): (m: map<string, FVal>)
    ensures m.Keys == KeySet(es)
  {
    map k | k in KeySet(es) :: Raw(Lookup(es, k).value)
  }

  /** `item_type(**item)`: plain construction from a dict, with no decoding of its values. */
  function ConstructFrom(decls: Decls, u: RecType, item: Value): Result<Record, Exc> {
    if item.Dict? then Construct(decls, u, Kwargs(item.entries)) else Err(TypeError)
  }

  /** `[item_type(**item) for item in items]`: one record per element, in order, or the first failure. */
  function BuildList(decls: Decls, u: RecType, items: seq<Value>): (r: Result<seq<Record>, Exc>)
    ensures r.Ok? <==> forall i :: 0 <= i < |items| ==> ConstructFrom(decls, u, items[i]).Ok?
    ensures r.Ok? ==> |r.value| == |items|
    ensures r.Ok? ==> forall i :: 0 <= i < |items| ==> Ok(r.value[i]) == ConstructFrom(decls, u, items[i])
    ensures r.Err? ==> r.error == TypeError
    decreases |items|
  {
    if items == [] then Ok([])
    else match ConstructFrom(decls, u, items[0])
      case Err(e) => Err(e)
      case Ok(x) =>
        match BuildList(decls, u, items[1..])
        case Err(e) => Err(e)
        case Ok(xs) => Ok([x] + xs)
  }

  /**
   * One pass of the loop body: a list-of-dataclass field becomes a list of
   * records, a dataclass field becomes a record, and every other value,
   * enumeration strings included, is kept as it is.
   */
  function ParseEntry(decls: Decls, t: RecType, name: string, v: Value): (r: Result<FVal, Exc>)
    ensures r.Err? ==> r.error == TypeError
  {
    match KindOf(decls, t, name)
    case Some(NestedList(u)) =>
      (match Iterate(v)
       case None => Err(TypeError)
       case Some(items) =>
         match BuildList(decls, u, items)
         case Err(e) => Err(e)
         case Ok(rs) => Ok(Subs(rs)))
    case Some(Nested(u)) =>
      (match ConstructFrom(decls, u, v)
       case Err(e) => Err(e)
       case Ok(r) => Ok(Sub(r)))
    case _ => Ok(Raw(v))
  }

  /** `parsed_data` after the loop has visited the entries `es`, or the error that stopped it. */
  function ParseFields(decls: Decls, t: RecType, es: seq<(string, Value)>): (r: Result<map<string, FVal>, Exc>)
    ensures r.Err? ==> r.error == TypeError
    decreases |es|
  {
    if es == [] then Ok(map[])
    else
      var last := es[|es| - 1];
      match ParseFields(decls, t, es[..|es| - 1])
      case Err(e) => Err(e)
      case Ok(p) =>
        match ParseEntry(decls, t, last.0, last.1)
        case Err(e) => Err(e)
        case Ok(f) => Ok(p[last.0 := f])
  }

  /**
   * `cls.from_dict(data)` of `ApiStruct`, for the dict `data` that `json.loads`
   * built from the members `es`: parse every item, then construct.
   */
  function DecodeStruct(decls: Decls, t: RecType, es: seq<(string, Value)>): (r: Result<Record, Exc>)
    ensures r.Ok? ==> r.value.ty == t && Conforms(decls, r.value)
    ensures r.Err? ==> r.error == TypeError
  {
    match ParseFields(decls, t, DictOf(es))
    case Err(e) => Err(e)
    case Ok(p) => Construct(decls, t, p)
  }

  /** `ApiStruct.from_dict` as the source runs it: a loop that fills `parsed_data`, then the constructor. */
  method FromDict(decls: Decls, t: RecType, data: seq<(string, Value)>) returns (r: Result<Record, Exc>)
    ensures r == DecodeStruct(decls, t, data)
  {
    var items := DictOf(data);
    var parsed: map<string, FVal> := map[];
    var i := 0;
    while i < |items|
      invariant 0 <= i <= |items|
      invariant ParseFields(decls, t, items[..i]) == Ok(parsed)
    {
      var (name, value) := items[i];
      assert items[..i + 1][..i] == items[..i];
      var f := ParseEntry(decls, t, name, value);
      if f.Err? {
        assert items[..i + 1] + items[i + 1..] == items;
        ParseFieldsPrefixError(decls, t, items[..i + 1], items[i + 1..]);
        return Err(f.error);
      }
      parsed := parsed[name := f.value];
      i := i + 1;
    }
    assert items[..i] == items;
    r := Construct(decls, t, parsed);
  }

  /** Once an entry fails, the whole loop fails, whatever follows. */
  lemma {:induction false} ParseFieldsPrefixError(decls: Decls, t: RecType, es: seq<(string, Value)>, rest: seq<(string, Value)>)
    requires ParseFields(decls, t, es).Err?
    ensures ParseFields(decls, t, es + rest).Err?
    decreases |rest|
  {
    if rest == [] {
      assert es + rest == es;
    } else {
      var front := rest[..|rest| - 1];
      assert (es + rest)[..|es + rest| - 1] == es + front;
      ParseFieldsPrefixError(decls, t, es, front);
    }
  }

  /** The loop succeeds exactly when every entry parses. */
  lemma {:induction false} ParseFieldsSucceeds(decls: Decls, t: RecType, es: seq<(string, Value)>)
    ensures ParseFields(decls, t, es).Ok? <==> forall i :: 0 <= i < |es| ==> ParseEntry(decls, t, es[i].0, es[i].1).Ok?
    decreases |es|
  {
    if es != [] {
      var init := es[..|es| - 1];
      ParseFieldsSucceeds(decls, t, init);
      assert forall i :: 0 <= i < |init| ==> init[i] == es[i];
    }
  }

  /**
   * What the loop leaves in `parsed_data`: one entry per key of the input,
   * holding the parse of that key's value.
   */
  lemma {:induction false} ParseFieldsContents(decls: Decls, t: RecType, es: seq<(string, Value)>)
    requires ParseFields(decls, t, es).Ok?
    ensures ParseFields(decls, t, es).value.Keys == KeySet(es)
    ensures forall k :: k in KeySet(es) ==> Ok(ParseFields(decls, t, es).value[k]) == ParseEntry(decls, t, k, Lookup(es, k).value)
    decreases |es|
  {
    if es != [] {
      var init := es[..|es| - 1];
      var last := es[|es| - 1];
      ParseFieldsContents(decls, t, init);
      assert KeySet(es) == KeySet(init) + {last.0} by {
        forall key | key in KeySet(es) ensures key in KeySet(init) + {last.0} {
          var i :| 0 <= i < |es| && es[i].0 == key;
          if i < |es| - 1 { assert init[i] == es[i]; }
        }
        forall key | key in KeySet(init) ensures key in KeySet(es) {
          var i :| 0 <= i < |init| && init[i].0 == key;
          assert es[i] == init[i];
        }
      }
    }
  }

  /**
   * The complete meaning of `from_dict` on a map: it succeeds exactly when
   * the value of every key parses, no key is foreign to the constructor, and
   * every required parameter is present.
   */
  lemma DecodeStructSucceeds(decls: Decls, t: RecType, es: seq<(string, Value)>)
    ensures DecodeStruct(decls, t, es).Ok? <==>
      && (forall k :: k in KeySet(es) ==> ParseEntry(decls, t, k, Lookup(es, k).value).Ok?)
      && KeySet(es) <= InitNames(decls, t)
      && RequiredNames(decls, t) <= KeySet(es)
  {
    var d := DictOf(es);
    DictOfDistinct(es);
    DictOfValues(es);
    ParseFieldsSucceeds(decls, t, d);
    assert (forall i :: 0 <= i < |d| ==> ParseEntry(decls, t, d[i].0, d[i].1).Ok?) <==>
           (forall k :: k in KeySet(es) ==> ParseEntry(decls, t, k, Lookup(es, k).value).Ok?) by {
      if forall i :: 0 <= i < |d| ==> ParseEntry(decls, t, d[i].0, d[i].1).Ok? {
        forall k | k in KeySet(es) ensures ParseEntry(decls, t, k, Lookup(es, k).value).Ok? {
          var i :| 0 <= i < |d| && d[i].0 == k;
        }
      }
    }
    if ParseFields(decls, t, d).Ok? {
      ParseFieldsContents(decls, t, d);
    }
  }

  /** A required parameter missing from the map is a TypeError. */
  lemma MissingFieldRejected(decls: Decls, t: RecType, es: seq<(string, Value)>, name: string)
    requires name in RequiredNames(decls, t) && name !in KeySet(es)
    ensures DecodeStruct(decls, t, es) == Err(TypeError)
  {
    DecodeStructSucceeds(decls, t, es);
  }

  /** A key that names no constructor parameter is a TypeError, not an ignored extra. */
  lemma UnknownFieldRejected(decls: Decls, t: RecType, es: seq<(string, Value)>, name: string)
    requires name in KeySet(es) && name !in InitNames(decls, t)
    ensures DecodeStruct(decls, t, es) == Err(TypeError)
  {
    DecodeStructSucceeds(decls, t, es);
  }

  /**
   * What a successful `from_dict` holds: each field given in the map, under
   * the last entry for its key, parsed; each field not given, its default.
   */
  lemma DecodeStructField(decls: Decls, t: RecType, es: seq<(string, Value)>, i: nat)
    requires ValidDecls(decls)
    requires DecodeStruct(decls, t, es).Ok? && i < |decls(t)|
    ensures var f := decls(t)[i];
      var x := DecodeStruct(decls, t, es).value.fields[i];
      && x.0 == f.name
      && (f.name in KeySet(es) ==> Ok(x.1) == ParseEntry(decls, t, f.name, Lookup(es, f.name).value))
      && (f.name !in KeySet(es) ==> x.1 == DefaultOf(f))
  {
    var d := DictOf(es);
    DictOfDistinct(es);
    DictOfLookup(es, decls(t)[i].name);
    ParseFieldsContents(decls, t, d);
    ConstructFields(decls, t, ParseFields(decls, t, d).value, i);
  }

  /**
   * A value under an enumeration-typed or plain field, or under a key no
   * field declares, is kept exactly as it came: a wire string is not turned
   * back into an enumeration member.
   */
  lemma PlainEntryKept(decls: Decls, t: RecType, name: string, v: Value)
    requires KindOf(decls, t, name).None? || KindOf(decls, t, name).value.Plain? || KindOf(decls, t, name).value.EnumField?
    ensures ParseEntry(decls, t, name, v) == Ok(Raw(v))
    ensures forall e :: ParseEntry(decls, t, name, v) != Ok(Member(e))
  {
  }

  /**
   * A `list[Record]` field becomes one record per element, in input order,
   * each built from its element; one element that cannot be built fails the field.
   */
  lemma ListEntryDecoded(decls: Decls, t: RecType, name: string, items: seq<Value>, u: RecType)
    requires KindOf(decls, t, name) == Some(NestedList(u))
    ensures ParseEntry(decls, t, name, List(items)).Ok? <==> forall j :: 0 <= j < |items| ==> ConstructFrom(decls, u, items[j]).Ok?
    ensures ParseEntry(decls, t, name, List(items)).Ok? ==>
      var f := ParseEntry(decls, t, name, List(items)).value;
      && f.Subs? && |f.rs| == |items|
      && forall j :: 0 <= j < |items| ==> Ok(f.rs[j]) == ConstructFrom(decls, u, items[j])
  {
  }

  /**
   * Decoding a nested record is not recursive: every field of the inner
   * record that the inner map supplies holds that map's value unparsed, even
   * where the inner class declares a nested record or an enumeration.
   */
  lemma NestedNotRecursive(decls: Decls, t: RecType, name: string, v: Value, u: RecType)
    requires ValidDecls(decls)
    requires KindOf(decls, t, name) == Some(Nested(u))
    requires ParseEntry(decls, t, name, v).Ok?
    ensures v.Dict? && ParseEntry(decls, t, name, v).value.Sub?
    ensures var s := ParseEntry(decls, t, name, v).value.r;
      && s.ty == u && Conforms(decls, s)
      && forall i :: 0 <= i < |s.fields| && s.fields[i].0 in KeySet(v.entries) ==>
           s.fields[i].1 == Raw(Lookup(v.entries, s.fields[i].0).value)
  {
    var s := ParseEntry(decls, t, name, v).value.r;
    forall i | 0 <= i < |s.fields| && s.fields[i].0 in KeySet(v.entries)
      ensures s.fields[i].1 == Raw(Lookup(v.entries, s.fields[i].0).value)
    {
      ConstructFields(decls, u, Kwargs(v.entries), i);
    }
  }

  // --------------------------------------------------------- round trip

  predicate AllInit(decls: Decls, t: RecType) {
    forall i :: 0 <= i < |decls(t)| ==> decls(t)[i].init
  }

  /** A record whose every field is a plain value: what `item_type(**item)` can rebuild. */
  predicate Flat(decls: Decls, s: Record) {
    && Conforms(decls, s)
    && AllInit(decls, s.ty)
    && forall i :: 0 <= i < |s.fields| ==> s.fields[i].1.Raw?
  }

  /** A field value that `from_dict` restores from its own serialisation, given the field's declared kind. */
  predicate FieldDecodable(decls: Decls, k: Kind, f: FVal) {
    match k
    case Nested(u) => f.Sub? && f.r.ty == u && Flat(decls, f.r)
    case NestedList(u) => f.Subs? && forall j :: 0 <= j < |f.rs| ==> f.rs[j].ty == u && Flat(decls, f.rs[j])
    case _ => f.Raw?
  }

  /**
   * A record that survives `from_dict(to_dict())`: it conforms, every field
   * is a constructor parameter (no `alacctoken`), no field holds an
   * enumeration member, and nested records go one level deep only.
   */
  predicate Decodable(decls: Decls, r: Record) {
    && Conforms(decls, r)
    && AllInit(decls, r.ty)
    && forall i :: 0 <= i < |r.fields| ==> FieldDecodable(decls, decls(r.ty)[i].kind, r.fields[i].1)
  }

  /** The constructor, given exactly a conforming record's values under its field names, rebuilds that record. */
  lemma ConstructAll(decls: Decls, r: Record, m: map<string, FVal>)
    requires ValidDecls(decls) && Conforms(decls, r) && AllInit(decls, r.ty)
    requires m.Keys == NameSet(decls(r.ty))
    requires forall i :: 0 <= i < |r.fields| ==> r.fields[i].0 in m && m[r.fields[i].0] == r.fields[i].1
    ensures Construct(decls, r.ty, m) == Ok(r)
  {
    var fs := decls(r.ty);
    assert InitNames(decls, r.ty) == NameSet(fs);
    var c := Construct(decls, r.ty, m);
    assert c.Ok?;
    assert c.value.fields == r.fields;
  }

  /** `item_type(**item)` rebuilds a flat record from its own dict. */
  lemma FlatRoundTrip(decls: Decls, s: Record)
    requires ValidDecls(decls) && Flat(decls, s)
    ensures ConstructFrom(decls, s.ty, ToDict(s)) == Ok(s)
  {
    var es := ToDict(s).entries;
    ToDictKeys(decls, s);
    var m := Kwargs(es);
    forall i | 0 <= i < |s.fields| ensures s.fields[i].0 in m && m[s.fields[i].0] == s.fields[i].1 {
      LookupDistinct(es, i);
      assert es[i].0 == s.fields[i].0;
    }
    ConstructAll(decls, s, m);
  }

  /** Each field of a decodable record parses back from its own serialisation. */
  lemma EntryRoundTrip(decls: Decls, r: Record, i: nat)
    requires ValidDecls(decls) && Decodable(decls, r) && i < |r.fields|
    ensures ParseEntry(decls, r.ty, r.fields[i].0, FieldToWire(r.fields[i].1)) == Ok(r.fields[i].1)
  {
    KindOfField(decls, r.ty, i);
    var f := r.fields[i].1;
    match decls(r.ty)[i].kind
    case NestedList(u) => {
      var items := FieldToWire(f).items;
      forall j | 0 <= j < |items| ensures ConstructFrom(decls, u, items[j]) == Ok(f.rs[j]) {
        FlatRoundTrip(decls, f.rs[j]);
      }
      var b := BuildList(decls, u, items);
      assert b.Ok?;
      assert b.value == f.rs;
    }
    case Nested(u) => {
      FlatRoundTrip(decls, f.r);
    }
    case Plain(_) => {
    }
    case EnumField(_) => {
    }
  }

  /** `cls.from_dict(x.to_dict())` rebuilds `x` for every decodable record `x`. */
  lemma RoundTrip(decls: Decls, r: Record)
    requires ValidDecls(decls) && Decodable(decls, r)
    ensures DecodeStruct(decls, r.ty, ToDict(r).entries) == Ok(r)
  {
    ToDictKeys(decls, r);
    DictOfDistinctKeys(ToDict(r).entries);
    RoundTripParsed(decls, r);
    ConstructAll(decls, r, ParseFields(decls, r.ty, ToDict(r).entries).value);
  }

  /** Each entry of the serialisation of a decodable record parses back to the field's value. */
  lemma RoundTripEntries(decls: Decls, r: Record)
    requires ValidDecls(decls) && Decodable(decls, r)
    ensures ParseFields(decls, r.ty, ToDict(r).entries).Ok?
    ensures forall i :: 0 <= i < |r.fields| ==>
      ParseEntry(decls, r.ty, ToDict(r).entries[i].0, ToDict(r).entries[i].1) == Ok(r.fields[i].1)
  {
    var es := ToDict(r).entries;
    forall i | 0 <= i < |es| ensures ParseEntry(decls, r.ty, es[i].0, es[i].1) == Ok(r.fields[i].1) {
      EntryRoundTrip(decls, r, i);
    }
    ParseFieldsSucceeds(decls, r.ty, es);
  }

  /** Parsing the serialisation of a decodable record gives back each field's value under its name. */
  lemma RoundTripParsed(decls: Decls, r: Record)
    requires ValidDecls(decls) && Decodable(decls, r)
    ensures ParseFields(decls, r.ty, ToDict(r).entries).Ok?
    ensures var p := ParseFields(decls, r.ty, ToDict(r).entries).value;
      && p.Keys == NameSet(decls(r.ty))
      && forall i :: 0 <= i < |r.fields| ==> r.fields[i].0 in p && p[r.fields[i].0] == r.fields[i].1
  {
    var es := ToDict(r).entries;
    ToDictKeys(decls, r);
    RoundTripEntries(decls, r);
    ParseFieldsContents(decls, r.ty, es);
    var p := ParseFields(decls, r.ty, es).value;
    forall i | 0 <= i < |r.fields| ensures r.fields[i].0 in p && p[r.fields[i].0] == r.fields[i].1 {
      LookupDistinct(es, i);
    }
  }


  /**
   * An enumeration member is not restored on read: a map that holds a
   * member's serialisation under the member's field decodes to the wire
   * string, never to the member.
   */
  lemma EnumNotRestored(decls: Decls, t: RecType, es: seq<(string, Value)>, i: nat, e: Variant)
    requires ValidDecls(decls) && i < |decls(t)| && decls(t)[i].kind.EnumField?
    requires Lookup(es, decls(t)[i].name) == Some(FieldToWire(Member(e)))
    requires DecodeStruct(decls, t, es).Ok?
    ensures DecodeStruct(decls, t, es).value.fields[i] == (decls(t)[i].name, Raw(Str(WireString(e))))
    ensures DecodeStruct(decls, t, es).value.fields[i].1 != Member(e)
  {
    KindOfField(decls, t, i);
    DecodeStructField(decls, t, es, i);
  }

  // ----------------------------------------------------- ApiResp.from_dict

  /** The three outcomes of decoding a response: the expected record, an `ApiRespError` in its place, or an exception. */
  datatype Decoded = Nominal(r: Record) | Substituted(err: Record) | Failed(exc: Exc)

  /**
   * `ApiResp.from_dict`: `data["ok"]` is read first; when it is falsy and the
   * expected class is not `ApiRespError`, the map is decoded as an
   * `ApiRespError` instead.
   */
  function DecodeResponse(decls: Decls, t: RecType, data: Value): (d: Decoded)
    requires IsResponse(t)
    ensures d.Nominal? ==> d.r.ty == t && Conforms(decls, d.r)
    ensures d.Substituted? ==> d.err.ty == ApiRespError && Conforms(decls, d.err) && t != ApiRespError
    ensures d == Failed(KeyError) <==> data.Dict? && "ok" !in KeySet(data.entries)
    ensures d.Nominal? ==> data.Dict? && (t == ApiRespError || Truthy(Lookup(data.entries, "ok").value))
    ensures d.Substituted? ==> data.Dict? && !Truthy(Lookup(data.entries, "ok").value)
    ensures d.Failed? ==> d.exc == TypeError || d.exc == KeyError
  {
    if !data.Dict? then Failed(TypeError) // `data["ok"]` on a list, str, number or None
    else match Lookup(data.entries, "ok")
      case None => Failed(KeyError)
      case Some(ok) =>
        if !Truthy(ok) && t != ApiRespError then
          match DecodeStruct(decls, ApiRespError, data.entries)
          case Ok(r) => Substituted(r)
          case Err(e) => Failed(e)
        else
          match DecodeStruct(decls, t, data.entries)
          case Ok(r) => Nominal(r)
          case Err(e) => Failed(e)
  }

  /** A map whose `ok` is truthy is decoded as the expected class, whatever else it holds. */
  lemma TruthyOkDecodedAsExpected(decls: Decls, t: RecType, es: seq<(string, Value)>)
    requires IsResponse(t) && Lookup(es, "ok").Some? && Truthy(Lookup(es, "ok").value)
    ensures DecodeResponse(decls, t, Dict(es)) ==
      match DecodeStruct(decls, t, es)
      case Ok(r) => Nominal(r)
      case Err(e) => Failed(e)
  {
  }

  /**
   * Round trip for responses: a decodable response record whose `ok` is
   * truthy (or any `ApiRespError`) decodes from its own dict to itself.
   */
  lemma ResponseRoundTrip(decls: Decls, r: Record)
    requires ValidDecls(decls) && IsResponse(r.ty) && Decodable(decls, r)
    requires r.ty == ApiRespError || Truthy(r.fields[0].1.v)
    ensures DecodeResponse(decls, r.ty, ToDict(r)) == Nominal(r)
  {
    assert WellFormedDecl(r.ty, decls(r.ty));
    var es := ToDict(r).entries;
    ToDictKeys(decls, r);
    LookupDistinct(es, 0);
    RoundTrip(decls, r);
  }

  /**
   * An error response with a falsy `ok` is handed back as that `ApiRespError`
   * whatever response type the caller expected.
   */
  lemma ErrorSubstituted(decls: Decls, e: Record, t: RecType)
    requires ValidDecls(decls) && e.ty == ApiRespError && Decodable(decls, e)
    requires !Truthy(e.fields[0].1.v)
    requires IsResponse(t) && t != ApiRespError
    ensures DecodeResponse(decls, t, ToDict(e)) == Substituted(e)
  {
    assert WellFormedDecl(e.ty, decls(e.ty));
    var es := ToDict(e).entries;
    ToDictKeys(decls, e);
    LookupDistinct(es, 0);
    RoundTrip(decls, e);
  }

  /**
   * With a falsy `ok`, the expected type is never consulted: every response
   * type other than `ApiRespError` gives the same outcome, and it is never the
   * nominal record.
   */
  lemma FalsyOkIgnoresExpectedType(decls: Decls, t1: RecType, t2: RecType, data: Value)
    requires IsResponse(t1) && IsResponse(t2) && t1 != ApiRespError && t2 != ApiRespError
    requires data.Dict? && "ok" in KeySet(data.entries) && !Truthy(Lookup(data.entries, "ok").value)
    ensures DecodeResponse(decls, t1, data) == DecodeResponse(decls, t2, data)
    ensures !DecodeResponse(decls, t1, data).Nominal?
  {
  }
}
