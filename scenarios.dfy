/**
 * The codec applied to the declarations of alapi.py, on concrete maps: the
 * behaviours a client of the library meets first. Each lemma holds for any
 * table that declares the dataclasses it uses as alapi.py does, `Fields`
 * among them.
 */
module Scenarios {
  import opened Wrappers
  import opened Wire
  import opened Api
  import opened Codec

  function BoughtA(): Record {
    Record(BoughtEmail, [("email", Raw(Str("a@x.com"))), ("ts_micros", Raw(Int(100)))])
  }

  function BoughtB(): Record {
    Record(BoughtEmail, [("email", Raw(Str("b@x.com"))), ("ts_micros", Raw(Int(200)))])
  }

  function BoughtWire(): seq<Value> {
    [Dict([("email", Str("a@x.com")), ("ts_micros", Int(100))]),
     Dict([("email", Str("b@x.com")), ("ts_micros", Int(200))])]
  }

  /** The map a failed call returns, and the `ApiRespError` it stands for. */
  function BalanceError(): Value {
    Dict([("ok", Bool(false)), ("code", Str("INSUFFICIENT_BALANCE")), ("message", Str("balance too low"))])
  }

  function BalanceErrorRecord(): Record {
    Record(ApiRespError, [("ok", Raw(Bool(false))), ("code", Raw(Str("INSUFFICIENT_BALANCE"))),
                          ("message", Raw(Str("balance too low")))])
  }

  lemma BalanceErrorShape(decls: Decls)
    requires decls(ApiRespError) == ApiRespErrorFields()
    ensures Decodable(decls, BalanceErrorRecord())
    ensures ToDict(BalanceErrorRecord()) == BalanceError()
    ensures !Truthy(BalanceErrorRecord().fields[0].1.v)
  {
    var fs := decls(ApiRespError);
    assert fs[0].name == "ok" && fs[1].name == "code" && fs[2].name == "message";
  }

  /**
   * A failed call returns `{"ok": false, "code": ..., "message": ...}`; a
   * caller that expected a `GetBalanceO` receives the `ApiRespError` instead.
   */
  lemma InsufficientBalanceSubstituted(decls: Decls)
    requires ValidDecls(decls) && decls(ApiRespError) == ApiRespErrorFields()
    ensures DecodeResponse(decls, GetBalanceO, BalanceError()) == Substituted(BalanceErrorRecord())
  {
    BalanceErrorShape(decls);
    ErrorSubstituted(decls, BalanceErrorRecord(), GetBalanceO);
  }

  function BuyEmailsResponse(): Value {
    Dict([("ok", Bool(true)), ("actual_cost", Num(Float("2.0"))), ("new_balance", Num(Float("8.0"))),
          ("bought_emails", List(BoughtWire()))])
  }

  function BuyEmailsRecord(): Record {
    Record(BuyEmailsO, [("ok", Raw(Bool(true))), ("actual_cost", Raw(Num(Float("2.0")))),
                        ("new_balance", Raw(Num(Float("8.0")))), ("bought_emails", Subs([BoughtA(), BoughtB()]))])
  }

  lemma BoughtShape(decls: Decls)
    requires decls(BoughtEmail) == BoughtEmailFields()
    ensures Flat(decls, BoughtA()) && Flat(decls, BoughtB())
  {
    assert decls(BoughtEmail)[0].name == "email" && decls(BoughtEmail)[1].name == "ts_micros";
  }

  /** The serialisation of the two-email record is the map the server sends. */
  lemma BuyEmailsWire()
    ensures ToDict(BuyEmailsRecord()) == BuyEmailsResponse()
  {
    BoughtWireShape();
    var r := BuyEmailsRecord();
    assert FieldToWire(r.fields[3].1).items == BoughtWire();
  }

  lemma BoughtWireShape()
    ensures ToDict(BoughtA()) == BoughtWire()[0] && ToDict(BoughtB()) == BoughtWire()[1]
  {
  }

  lemma BuyEmailsShape(decls: Decls)
    requires decls(BuyEmailsO) == BuyEmailsOFields() && decls(BoughtEmail) == BoughtEmailFields()
    ensures Decodable(decls, BuyEmailsRecord())
    ensures ToDict(BuyEmailsRecord()) == BuyEmailsResponse()
    ensures Truthy(BuyEmailsRecord().fields[0].1.v)
  {
    BoughtShape(decls);
    BuyEmailsWire();
    var r := BuyEmailsRecord();
    var fs := decls(BuyEmailsO);
    assert fs[0].name == "ok" && fs[1].name == "actual_cost" && fs[2].name == "new_balance";
    assert fs[3].name == "bought_emails" && fs[3].kind == NestedList(BoughtEmail);
    assert FieldDecodable(decls, fs[3].kind, r.fields[3].1);
  }

  /** A `BuyEmailsO` with two bought emails decodes to two `BoughtEmail` records, in input order. */
  lemma BuyEmailsListDecoded(decls: Decls)
    requires ValidDecls(decls) && decls(BuyEmailsO) == BuyEmailsOFields() && decls(BoughtEmail) == BoughtEmailFields()
    ensures DecodeResponse(decls, BuyEmailsO, BuyEmailsResponse()) == Nominal(BuyEmailsRecord())
    ensures BuyEmailsRecord().fields[3].1 == Subs([BoughtA(), BoughtB()])
  {
    BuyEmailsShape(decls);
    ResponseRoundTrip(decls, BuyEmailsRecord());
  }

  /**
   * `{"ok": true, "bought_emails": [...]}` alone does not decode as a
   * `BuyEmailsO`: `actual_cost` and `new_balance` are required.
   */
  lemma BuyEmailsWithoutCostFails(decls: Decls)
    requires decls(BuyEmailsO) == BuyEmailsOFields()
    ensures DecodeResponse(decls, BuyEmailsO, Dict([("ok", Bool(true)), ("bought_emails", List(BoughtWire()))])) == Failed(TypeError)
  {
    var es := [("ok", Bool(true)), ("bought_emails", List(BoughtWire()))];
    assert DistinctKeys(es);
    LookupDistinct(es, 0);
    TruthyOkDecodedAsExpected(decls, BuyEmailsO, es);
    assert decls(BuyEmailsO)[1].name == "actual_cost";
    assert "actual_cost" in RequiredNames(decls, BuyEmailsO);
    MissingFieldRejected(decls, BuyEmailsO, es, "actual_cost");
  }

  /** A `GetEmailsO` body that repeats `emails`, first as null and then as an empty list. */
  function RepeatedEmails(): seq<(string, Value)> {
    [("ok", Bool(true)), ("emails", Null), ("emails", List([]))]
  }

  /** The dict `json.loads` makes of it keeps one `emails`, in its first place, with its last value. */
  lemma RepeatedEmailsDict()
    ensures DictOf(RepeatedEmails()) == [("ok", Bool(true)), ("emails", List([]))]
  {
    var es := RepeatedEmails();
    var d1 := [("ok", Bool(true))];
    var d2 := d1 + [("emails", Null)];
    assert DictOf(es[..2]) == d2 by {
      assert es[..2][..1] == es[..1] && es[..1][..0] == [];
      assert KeySet([]) == {};
      AssignDistinct([], "ok", Bool(true));
      assert DictOf(es[..1]) == d1;
      assert KeySet(d1) == {"ok"} by {
        assert d1[0].0 == "ok";
      }
      AssignDistinct(d1, "emails", Null);
    }
    assert "emails" in KeySet(d2) by {
      assert d2[1].0 == "emails";
    }
    assert DistinctKeys(d2);
    AssignDistinct(d2, "emails", List([]));
  }

  /**
   * Only the last value of a repeated key is decoded: the shadowed `null`
   * under `emails` is never read, and the body gives a `GetEmailsO` with no emails.
   */
  lemma RepeatedKeyLastWins(decls: Decls)
    requires decls(GetEmailsO) == GetEmailsOFields()
    ensures DecodeResponse(decls, GetEmailsO, Dict(RepeatedEmails())) ==
      Nominal(Record(GetEmailsO, [("ok", Raw(Bool(true))), ("emails", Subs([]))]))
  {
    var es := RepeatedEmails();
    RepeatedEmailsDict();
    assert Lookup(es, "ok") == Some(Bool(true));
    TruthyOkDecodedAsExpected(decls, GetEmailsO, es);
    var d := DictOf(es);
    var fs := decls(GetEmailsO);
    assert FindKind(fs, "ok") == Some(Plain("bool"));
    assert FindKind(fs, "emails") == Some(NestedList(BoughtEmail));
    assert d[..1] == [("ok", Bool(true))] && d[..1][..0] == [];
    assert ParseEntry(decls, GetEmailsO, "ok", Bool(true)) == Ok(Raw(Bool(true)));
    assert BuildList(decls, BoughtEmail, []) == Ok([]);
    assert ParseEntry(decls, GetEmailsO, "emails", List([])) == Ok(Subs([]));
    assert ParseFields(decls, GetEmailsO, d[..1]) == Ok(map["ok" := Raw(Bool(true))]);
    var p := ParseFields(decls, GetEmailsO, d);
    assert p == Ok(map["ok" := Raw(Bool(true)), "emails" := Subs([])]);
    var c := Construct(decls, GetEmailsO, p.value);
    assert c.Ok?;
    assert c.value.fields == [("ok", Raw(Bool(true))), ("emails", Subs([]))];
  }

  /** A key the response class does not declare makes decoding fail rather than being ignored. */
  lemma UnknownKeyRejected(decls: Decls)
    requires decls(GetBalanceO) == GetBalanceOFields()
    ensures DecodeResponse(decls, GetBalanceO, Dict([("ok", Bool(true)), ("balance", Num(Float("1.5"))), ("currency", Str("EUR"))]))
      == Failed(TypeError)
  {
    var es := [("ok", Bool(true)), ("balance", Num(Float("1.5"))), ("currency", Str("EUR"))];
    assert DistinctKeys(es);
    LookupDistinct(es, 0);
    TruthyOkDecodedAsExpected(decls, GetBalanceO, es);
    assert es[2].0 == "currency";
    assert "currency" !in InitNames(decls, GetBalanceO);
    UnknownFieldRejected(decls, GetBalanceO, es, "currency");
  }

  /** A `GetMailsI` map that names its filter by the wire string `"OnlyNew"`. */
  function FilterRequest(): seq<(string, Value)> {
    [("email", Str("a@x.com")), ("limit", Int(5)), ("filter", Str("OnlyNew"))]
  }

  lemma FilterKinds(decls: Decls)
    requires decls(GetMailsI) == GetMailsIFields()
    ensures KindOf(decls, GetMailsI, "email") == Some(Plain("str"))
    ensures KindOf(decls, GetMailsI, "limit") == Some(Plain("int"))
    ensures KindOf(decls, GetMailsI, "filter") == Some(EnumField(FilterEnum))
  {
    GetMailsIDistinct();
    var fs := decls(GetMailsI);
    FindKindAt(fs, 1);
    FindKindAt(fs, 2);
    FindKindAt(fs, 4);
  }

  lemma FilterRequestEntriesParse(decls: Decls)
    requires decls(GetMailsI) == GetMailsIFields()
    ensures forall k :: k in KeySet(FilterRequest()) ==> ParseEntry(decls, GetMailsI, k, Lookup(FilterRequest(), k).value).Ok?
  {
    FilterKinds(decls);
    FilterRequestKeys();
    var es := FilterRequest();
    forall k | k in KeySet(es) ensures ParseEntry(decls, GetMailsI, k, Lookup(es, k).value).Ok? {
      PlainEntryKept(decls, GetMailsI, k, Lookup(es, k).value);
    }
  }

  lemma FilterRequestKeys()
    ensures KeySet(FilterRequest()) == {"email", "limit", "filter"}
    ensures Lookup(FilterRequest(), "filter") == Some(Str("OnlyNew"))
  {
    var es := FilterRequest();
    assert KeySet(es) <= {"email", "limit", "filter"} by {
      forall k | k in KeySet(es) ensures k in {"email", "limit", "filter"} {
        var i :| 0 <= i < |es| && es[i].0 == k;
      }
    }
    assert es[0].0 == "email" && es[1].0 == "limit" && es[2].0 == "filter";
    assert DistinctKeys(es);
    LookupDistinct(es, 2);
  }

  lemma FilterRequestAccepted(decls: Decls)
    requires decls(GetMailsI) == GetMailsIFields()
    ensures DecodeStruct(decls, GetMailsI, FilterRequest()).Ok?
    ensures "filter" in KeySet(FilterRequest()) && Lookup(FilterRequest(), "filter") == Some(Str("OnlyNew"))
    ensures decls(GetMailsI)[4].name == "filter" && decls(GetMailsI)[4].kind == EnumField(FilterEnum)
  {
    var es := FilterRequest();
    FilterRequestKeys();
    var fs := decls(GetMailsI);
    assert InitNames(decls, GetMailsI) >= {"email", "limit", "filter"} by {
      assert fs[1].name == "email" && fs[2].name == "limit" && fs[4].name == "filter";
    }
    assert RequiredNames(decls, GetMailsI) <= {"email", "limit"};
    FilterRequestEntriesParse(decls);
    DecodeStructSucceeds(decls, GetMailsI, es);
  }

  /** A wire string under an enumeration field stays a string after decoding. */
  lemma FilterStringKept(decls: Decls)
    requires ValidDecls(decls) && decls(GetMailsI) == GetMailsIFields()
    ensures DecodeStruct(decls, GetMailsI, FilterRequest()).Ok?
    ensures DecodeStruct(decls, GetMailsI, FilterRequest()).value.fields[4] == ("filter", Raw(Str("OnlyNew")))
  {
    FilterRequestAccepted(decls);
    FilterKinds(decls);
    PlainEntryKept(decls, GetMailsI, "filter", Str("OnlyNew"));
    DecodeStructField(decls, GetMailsI, FilterRequest(), 4);
  }

  /**
   * A `GetMailsI` built with only `email` and `limit` gets no offset, the
   * default filter `NONE`, no refresh, and the flags off; its token is unset.
   */
  lemma GetMailsIDefaults(decls: Decls)
    requires decls(GetMailsI) == GetMailsIFields()
    ensures Construct(decls, GetMailsI, GetMailsArgs()) ==
      Ok(Record(GetMailsI, [("alacctoken", Raw(Null)), ("email", Raw(Str("a@x.com"))), ("limit", Raw(Int(10))),
                            ("almailid_offset", Raw(Null)), ("filter", Member(FilterMember(NoneFilter))),
                            ("refresh_mails", Member(RefreshMember(NoRefresh))),
                            ("autobuy_locked", Raw(Bool(false))), ("only_text", Raw(Bool(false)))]))
  {
    GetMailsDefaultsHead(decls);
    GetMailsDefaultsTail(decls);
    var c := Construct(decls, GetMailsI, GetMailsArgs());
    assert c.value.fields == [("alacctoken", Raw(Null)), ("email", Raw(Str("a@x.com"))), ("limit", Raw(Int(10))),
                              ("almailid_offset", Raw(Null)), ("filter", Member(FilterMember(NoneFilter))),
                              ("refresh_mails", Member(RefreshMember(NoRefresh))),
                              ("autobuy_locked", Raw(Bool(false))), ("only_text", Raw(Bool(false)))];
  }

  /** `GetMailsI(email="a@x.com", limit=10)`. */
  function GetMailsArgs(): map<string, FVal> {
    map["email" := Raw(Str("a@x.com")), "limit" := Raw(Int(10))]
  }

  lemma GetMailsArgsAccepted(decls: Decls)
    requires decls(GetMailsI) == GetMailsIFields()
    ensures Construct(decls, GetMailsI, GetMailsArgs()).Ok?
    ensures |Construct(decls, GetMailsI, GetMailsArgs()).value.fields| == 8
  {
    var fs := decls(GetMailsI);
    assert fs[1].name == "email" && fs[2].name == "limit";
    assert GetMailsArgs().Keys <= InitNames(decls, GetMailsI);
    assert RequiredNames(decls, GetMailsI) <= GetMailsArgs().Keys;
  }

  lemma GetMailsDefaultsHead(decls: Decls)
    requires decls(GetMailsI) == GetMailsIFields()
    ensures Construct(decls, GetMailsI, GetMailsArgs()).Ok?
    ensures var f := Construct(decls, GetMailsI, GetMailsArgs()).value.fields;
      && |f| == 8
      && f[0] == ("alacctoken", Raw(Null)) && f[1] == ("email", Raw(Str("a@x.com")))
      && f[2] == ("limit", Raw(Int(10))) && f[3] == ("almailid_offset", Raw(Null))
  {
    GetMailsArgsAccepted(decls);
  }

  lemma GetMailsDefaultsTail(decls: Decls)
    requires decls(GetMailsI) == GetMailsIFields()
    ensures Construct(decls, GetMailsI, GetMailsArgs()).Ok?
    ensures var f := Construct(decls, GetMailsI, GetMailsArgs()).value.fields;
      && |f| == 8
      && f[4] == ("filter", Member(FilterMember(NoneFilter))) && f[5] == ("refresh_mails", Member(RefreshMember(NoRefresh)))
      && f[6] == ("autobuy_locked", Raw(Bool(false))) && f[7] == ("only_text", Raw(Bool(false)))
  {
    GetMailsArgsAccepted(decls);
  }

  /** An omitted `expected_price` is `None` in `BuyEmailsI`. */
  lemma BuyEmailsIDefaults(decls: Decls)
    requires decls(BuyEmailsI) == BuyEmailsIFields()
    ensures Construct(decls, BuyEmailsI, map["amount" := Raw(Int(1)), "domain" := Raw(Str("x.com"))]) ==
      Ok(Record(BuyEmailsI, [("alacctoken", Raw(Null)), ("amount", Raw(Int(1))), ("domain", Raw(Str("x.com"))),
                             ("expected_price", Raw(Null))]))
  {
    var kw := map["amount" := Raw(Int(1)), "domain" := Raw(Str("x.com"))];
    var fs := decls(BuyEmailsI);
    assert fs[1].name == "amount" && fs[2].name == "domain";
    assert kw.Keys <= InitNames(decls, BuyEmailsI);
    var c := Construct(decls, BuyEmailsI, kw);
    assert c.Ok? && |c.value.fields| == 4;
    assert c.value.fields[0] == ("alacctoken", Raw(Null));
    assert c.value.fields[1] == ("amount", Raw(Int(1)));
    assert c.value.fields[2] == ("domain", Raw(Str("x.com")));
    assert c.value.fields[3] == ("expected_price", Raw(Null));
    assert c.value.fields == [("alacctoken", Raw(Null)), ("amount", Raw(Int(1))), ("domain", Raw(Str("x.com"))),
                              ("expected_price", Raw(Null))];
  }

  /** An omitted `expected_price` is `None` and `only_text` is off in `UnlockMailsI`. */
  lemma UnlockMailsIDefaults(decls: Decls)
    requires decls(UnlockMailsI) == UnlockMailsIFields()
    ensures Construct(decls, UnlockMailsI, map["email" := Raw(Str("a@x.com")), "almailids" := Raw(List([]))]) ==
      Ok(Record(UnlockMailsI, [("alacctoken", Raw(Null)), ("email", Raw(Str("a@x.com"))), ("almailids", Raw(List([]))),
                               ("expected_price", Raw(Null)), ("only_text", Raw(Bool(false)))]))
  {
    var kw := map["email" := Raw(Str("a@x.com")), "almailids" := Raw(List([]))];
    var fs := decls(UnlockMailsI);
    assert fs[1].name == "email" && fs[2].name == "almailids";
    assert kw.Keys <= InitNames(decls, UnlockMailsI);
    var c := Construct(decls, UnlockMailsI, kw);
    assert c.Ok? && |c.value.fields| == 5;
    assert c.value.fields[0] == ("alacctoken", Raw(Null));
    assert c.value.fields[1] == ("email", Raw(Str("a@x.com")));
    assert c.value.fields[2] == ("almailids", Raw(List([])));
    assert c.value.fields[3] == ("expected_price", Raw(Null));
    assert c.value.fields[4] == ("only_text", Raw(Bool(false)));
    assert c.value.fields == [("alacctoken", Raw(Null)), ("email", Raw(Str("a@x.com"))), ("almailids", Raw(List([]))),
                              ("expected_price", Raw(Null)), ("only_text", Raw(Bool(false)))];
  }
}
