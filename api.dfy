/**
 * The declared shape of every request and response record: one field
 * descriptor per dataclass field, in the order `dataclasses.fields` gives
 * (inherited fields first). The descriptors stand for the type hints the
 * codec inspects at run time.
 */
module Api {
  import opened Wrappers
  import opened Wire

  /** `GetMailsFilter`: NONE, ONLY_NEW, ONLY_UNLOCKED. */
  datatype GetMailsFilter = NoneFilter | OnlyNew | OnlyUnlocked

  /** `GetMailsRefreshMails`: NO_REFRESH, REFRESH, REFRESH_OPTIONAL. */
  datatype GetMailsRefreshMails = NoRefresh | Refresh | RefreshOptional

  datatype EnumType = FilterEnum | RefreshMailsEnum

  /** A member of one of the two enumerations. */
  datatype Variant = FilterMember(filter: GetMailsFilter) | RefreshMember(refresh: GetMailsRefreshMails)

  function EnumOf(v: Variant): EnumType {
    if v.FilterMember? then FilterEnum else RefreshMailsEnum
  }

  /** The `.value` of each member: the string sent on the wire. */
  function WireString(v: Variant): string {
    match v
    case FilterMember(NoneFilter) => "None"
    case FilterMember(OnlyNew) => "OnlyNew"
    case FilterMember(OnlyUnlocked) => "OnlyUnlocked"
    case RefreshMember(NoRefresh) => "NoRefresh"
    case RefreshMember(Refresh) => "Refresh"
    case RefreshMember(RefreshOptional) => "RefreshOptional"
  }

  /** `GetMailsFilter.default()`. */
  function FilterDefault(): (f: GetMailsFilter)
    ensures WireString(FilterMember(f)) == "None"
  {
    NoneFilter
  }

  /** `GetMailsRefreshMails.default()`. */
  function RefreshDefault(): (r: GetMailsRefreshMails)
    ensures WireString(RefreshMember(r)) == "NoRefresh"
  {
    NoRefresh
  }

  /** The `default()` class method of an enumeration, as a default factory calls it. */
  function DefaultVariant(e: EnumType): (v: Variant)
    ensures EnumOf(v) == e
    ensures WireString(v) == if e == FilterEnum then "None" else "NoRefresh"
  {
    match e
    case FilterEnum => FilterMember(FilterDefault())
    case RefreshMailsEnum => RefreshMember(RefreshDefault())
  }

  /** Two members never share a wire string, so serialising a member loses nothing. */
  lemma WireStringInjective(a: Variant, b: Variant)
    requires WireString(a) == WireString(b)
    ensures a == b
  {
    match a {
      case FilterMember(_) =>
      case RefreshMember(_) =>
    }
  }

  /** The dataclasses of the API, the three bases included. */
  datatype RecType =
    | ApiResp | ApiRespError | ApiRespCheck
    | ApiReq | ApiReqAuthed
    | GetApiSettingsI | GetApiSettingsO
    | GetApiInfoI | GetApiInfoO
    | GetBalanceI | GetBalanceO
    | BoughtEmail | BuyEmailsI | BuyEmailsO
    | GetEmailsI | GetEmailsO
    | Mail | GetMailsI | GetMailsO
    | UnlockMailsI | UnlockMailsO

  /** Subclasses of `ApiResp`. */
  predicate IsResponse(t: RecType) {
    t in {ApiResp, ApiRespError, ApiRespCheck, GetApiSettingsO, GetApiInfoO, GetBalanceO,
          BuyEmailsO, GetEmailsO, GetMailsO, UnlockMailsO}
  }

  /** Subclasses of `ApiReq`. */
  predicate IsRequest(t: RecType) {
    t in {ApiReq, ApiReqAuthed, GetApiSettingsI, GetApiInfoI, GetBalanceI,
          BuyEmailsI, GetEmailsI, GetMailsI, UnlockMailsI}
  }

  /** Subclasses of `ApiReqAuthed`, the requests that carry `alacctoken`. */
  predicate IsAuthed(t: RecType) {
    t in {ApiReqAuthed, GetApiInfoI, GetBalanceI, BuyEmailsI, GetEmailsI, GetMailsI, UnlockMailsI}
  }

  /**
   * What the codec learns from a field's type hint: a plain value (str, int,
   * float, bool, Optional[...], list[str], dict[str, str]), an enumeration,
   * a nested dataclass, or a list of dataclasses.
   */
  datatype Kind = Plain(hint: string) | EnumField(e: EnumType) | Nested(t: RecType) | NestedList(t: RecType)

  /** No default, a constant default, or `default_factory=E.default`. */
  datatype Default = Required | DefaultValue(v: Value) | DefaultFactory(e: EnumType)

  /** One dataclass field; `init` is false for `field(init=False)`. */
  datatype FieldDesc = FieldDesc(name: string, kind: Kind, init: bool, default: Default)

  function Req(name: string, kind: Kind): FieldDesc {
    FieldDesc(name, kind, true, Required)
  }

  function Opt(name: string, kind: Kind, v: Value): FieldDesc {
    FieldDesc(name, kind, true, DefaultValue(v))
  }

  const OkField := Req("ok", Plain("bool"))

  /** `alacctoken: str = field(default=None, init=False)`. */
  const TokenField := FieldDesc("alacctoken", Plain("str"), false, DefaultValue(Null))

  function ApiRespFields(): seq<FieldDesc> {
    [OkField]
  }

  function ApiRespErrorFields(): seq<FieldDesc> {
    [OkField, Req("code", Plain("str")), Opt("message", Plain("Optional[str]"), Null)]
  }

  function ApiRespCheckFields(): seq<FieldDesc> {
    [OkField]
  }

  function ApiReqFields(): seq<FieldDesc> {
    []
  }

  function ApiReqAuthedFields(): seq<FieldDesc> {
    [TokenField]
  }

  function GetApiSettingsIFields(): seq<FieldDesc> {
    []
  }

  function GetApiSettingsOFields(): seq<FieldDesc> {
    [OkField, Req("default_get_emails_interval", Plain("float")),
     Req("default_get_emails_limit", Plain("int")), Req("default_get_mails_limit", Plain("int"))]
  }

  function GetApiInfoIFields(): seq<FieldDesc> {
    [TokenField]
  }

  function GetApiInfoOFields(): seq<FieldDesc> {
    [OkField, Req("stock_domains", Plain("dict[str, str]")), Req("price_domains", Plain("dict[str, str]"))]
  }

  function GetBalanceIFields(): seq<FieldDesc> {
    [TokenField]
  }

  function GetBalanceOFields(): seq<FieldDesc> {
    [OkField, Req("balance", Plain("float"))]
  }

  function BoughtEmailFields(): seq<FieldDesc> {
    [Req("email", Plain("str")), Req("ts_micros", Plain("int"))]
  }

  function BuyEmailsIFields(): seq<FieldDesc> {
    [TokenField, Req("amount", Plain("int")), Req("domain", Plain("str")),
     Opt("expected_price", Plain("Optional[float]"), Null)]
  }

  function BuyEmailsOFields(): seq<FieldDesc> {
    [OkField, Req("actual_cost", Plain("float")), Req("new_balance", Plain("float")),
     Req("bought_emails", NestedList(BoughtEmail))]
  }

  function GetEmailsIFields(): seq<FieldDesc> {
    [TokenField, Req("limit", Plain("int")), Opt("email_offset", Plain("Optional[str]"), Null)]
  }

  function GetEmailsOFields(): seq<FieldDesc> {
    [OkField, Req("emails", NestedList(BoughtEmail))]
  }

  function MailFields(): seq<FieldDesc> {
    [Req("almailid", Plain("str")), Req("alconvid", Plain("str")), Req("ts_micros", Plain("int")),
     Req("sent", Plain("bool")), Req("read", Plain("bool")), Req("unlocked", Plain("bool")),
     Req("refreshed", Plain("bool")), Req("sender_name", Plain("str")), Req("sender_email", Plain("str")),
     Req("subject", Plain("str")), Req("body_preview", Plain("str")), Req("body_type", Plain("str")),
     Opt("body_raw", Plain("Optional[str]"), Null), Opt("body_text", Plain("Optional[str]"), Null),
     Opt("body_is_partial", Plain("bool"), Bool(false))]
  }

  function GetMailsIFields(): seq<FieldDesc> {
    [TokenField, Req("email", Plain("str")), Req("limit", Plain("int")),
     Opt("almailid_offset", Plain("Optional[str]"), Null),
     FieldDesc("filter", EnumField(FilterEnum), true, DefaultFactory(FilterEnum)),
     FieldDesc("refresh_mails", EnumField(RefreshMailsEnum), true, DefaultFactory(RefreshMailsEnum)),
     Opt("autobuy_locked", Plain("bool"), Bool(false)), Opt("only_text", Plain("bool"), Bool(false))]
  }

  function GetMailsOFields(): seq<FieldDesc> {
    [OkField, Req("mails", NestedList(Mail))]
  }

  function UnlockMailsIFields(): seq<FieldDesc> {
    [TokenField, Req("email", Plain("str")), Req("almailids", Plain("list[str]")),
     Opt("expected_price", Plain("Optional[float]"), Null), Opt("only_text", Plain("bool"), Bool(false))]
  }

  function UnlockMailsOFields(): seq<FieldDesc> {
    [OkField, Req("actual_cost", Plain("float")), Req("new_balance", Plain("float")),
     Req("unlocked_mails", NestedList(Mail))]
  }

  /** The fields of each dataclass, in declaration order, inherited ones first. */
  function Fields(t: RecType): seq<FieldDesc> {
    match t
    case ApiResp => ApiRespFields()
    case ApiRespError => ApiRespErrorFields()
    case ApiRespCheck => ApiRespCheckFields()
    case ApiReq => ApiReqFields()
    case ApiReqAuthed => ApiReqAuthedFields()
    case GetApiSettingsI => GetApiSettingsIFields()
    case GetApiSettingsO => GetApiSettingsOFields()
    case GetApiInfoI => GetApiInfoIFields()
    case GetApiInfoO => GetApiInfoOFields()
    case GetBalanceI => GetBalanceIFields()
    case GetBalanceO => GetBalanceOFields()
    case BoughtEmail => BoughtEmailFields()
    case BuyEmailsI => BuyEmailsIFields()
    case BuyEmailsO => BuyEmailsOFields()
    case GetEmailsI => GetEmailsIFields()
    case GetEmailsO => GetEmailsOFields()
    case Mail => MailFields()
    case GetMailsI => GetMailsIFields()
    case GetMailsO => GetMailsOFields()
    case UnlockMailsI => UnlockMailsIFields()
    case UnlockMailsO => UnlockMailsOFields()
  }

  predicate DistinctNames(fs: seq<FieldDesc>) {
    forall i, j :: 0 <= i < j < |fs| ==> fs[i].name != fs[j].name
  }

  /** A table of declarations: the fields of each dataclass. The codec is driven by one. */
  type Decls = RecType -> seq<FieldDesc>

  /** An `init=False` field has a default; among constructor parameters none without a default follows one with a default. */
  predicate DefaultsOrdered(fs: seq<FieldDesc>) {
    && (forall i :: 0 <= i < |fs| && !fs[i].init ==> !fs[i].default.Required?)
    && (forall i, j :: 0 <= i < j < |fs| && fs[i].init && fs[j].init && !fs[i].default.Required? ==> !fs[j].default.Required?)
  }

  /** A response starts with `ok`, an authenticated request with `alacctoken`, and no other field is `init=False`. */
  predicate HeadRules(t: RecType, fs: seq<FieldDesc>) {
    && (IsResponse(t) <==> |fs| > 0 && fs[0] == OkField)
    && (IsAuthed(t) <==> |fs| > 0 && fs[0] == TokenField)
    && (forall i :: 0 < i < |fs| ==> fs[i].init)
  }

  /** What the `@dataclass` decorator and the class hierarchy guarantee of a declaration. */
  ghost predicate WellFormedDecl(t: RecType, fs: seq<FieldDesc>) {
    DistinctNames(fs) && DefaultsOrdered(fs) && HeadRules(t, fs)
  }

  ghost predicate ValidDecls(decls: Decls) {
    forall t :: WellFormedDecl(t, decls(t))
  }

  lemma ApiRespDecl()
    ensures WellFormedDecl(ApiResp, Fields(ApiResp))
  {
  }

  lemma ApiRespErrorDecl()
    ensures WellFormedDecl(ApiRespError, Fields(ApiRespError))
  {
  }

  lemma ApiRespCheckDecl()
    ensures WellFormedDecl(ApiRespCheck, Fields(ApiRespCheck))
  {
  }

  lemma ApiReqDecl()
    ensures WellFormedDecl(ApiReq, Fields(ApiReq))
  {
  }

  lemma ApiReqAuthedDecl()
    ensures WellFormedDecl(ApiReqAuthed, Fields(ApiReqAuthed))
  {
  }

  lemma GetApiSettingsIDecl()
    ensures WellFormedDecl(GetApiSettingsI, Fields(GetApiSettingsI))
  {
  }

  lemma GetApiSettingsODecl()
    ensures WellFormedDecl(GetApiSettingsO, Fields(GetApiSettingsO))
  {
    GetApiSettingsODistinct();
    GetApiSettingsOOrdered();
    GetApiSettingsOHeads();
  }

  lemma GetApiSettingsODistinct()
    ensures DistinctNames(GetApiSettingsOFields())
  {
  }

  lemma GetApiSettingsOOrdered()
    ensures DefaultsOrdered(GetApiSettingsOFields())
  {
  }

  lemma GetApiSettingsOHeads()
    ensures HeadRules(GetApiSettingsO, GetApiSettingsOFields())
  {
  }

  lemma GetApiInfoIDecl()
    ensures WellFormedDecl(GetApiInfoI, Fields(GetApiInfoI))
  {
  }

  lemma GetApiInfoODecl()
    ensures WellFormedDecl(GetApiInfoO, Fields(GetApiInfoO))
  {
    GetApiInfoODistinct();
    GetApiInfoOOrdered();
    GetApiInfoOHeads();
  }

  lemma GetApiInfoODistinct()
    ensures DistinctNames(GetApiInfoOFields())
  {
  }

  lemma GetApiInfoOOrdered()
    ensures DefaultsOrdered(GetApiInfoOFields())
  {
  }

  lemma GetApiInfoOHeads()
    ensures HeadRules(GetApiInfoO, GetApiInfoOFields())
  {
  }

  lemma GetBalanceIDecl()
    ensures WellFormedDecl(GetBalanceI, Fields(GetBalanceI))
  {
  }

  lemma GetBalanceODecl()
    ensures WellFormedDecl(GetBalanceO, Fields(GetBalanceO))
  {
  }

  lemma BoughtEmailDecl()
    ensures WellFormedDecl(BoughtEmail, Fields(BoughtEmail))
  {
  }

  lemma BuyEmailsIDecl()
    ensures WellFormedDecl(BuyEmailsI, Fields(BuyEmailsI))
  {
    BuyEmailsIDistinct();
    BuyEmailsIOrdered();
    BuyEmailsIHeads();
  }

  lemma BuyEmailsIDistinct()
    ensures DistinctNames(BuyEmailsIFields())
  {
  }

  lemma BuyEmailsIOrdered()
    ensures DefaultsOrdered(BuyEmailsIFields())
  {
  }

  lemma BuyEmailsIHeads()
    ensures HeadRules(BuyEmailsI, BuyEmailsIFields())
  {
  }

  lemma BuyEmailsODecl()
    ensures WellFormedDecl(BuyEmailsO, Fields(BuyEmailsO))
  {
    BuyEmailsODistinct();
    BuyEmailsOOrdered();
    BuyEmailsOHeads();
  }

  lemma BuyEmailsODistinct()
    ensures DistinctNames(BuyEmailsOFields())
  {
  }

  lemma BuyEmailsOOrdered()
    ensures DefaultsOrdered(BuyEmailsOFields())
  {
  }

  lemma BuyEmailsOHeads()
    ensures HeadRules(BuyEmailsO, BuyEmailsOFields())
  {
  }

  lemma GetEmailsIDecl()
    ensures WellFormedDecl(GetEmailsI, Fields(GetEmailsI))
  {
    GetEmailsIDistinct();
    GetEmailsIOrdered();
    GetEmailsIHeads();
  }

  lemma GetEmailsIDistinct()
    ensures DistinctNames(GetEmailsIFields())
  {
  }

  lemma GetEmailsIOrdered()
    ensures DefaultsOrdered(GetEmailsIFields())
  {
  }

  lemma GetEmailsIHeads()
    ensures HeadRules(GetEmailsI, GetEmailsIFields())
  {
  }

  lemma GetEmailsODecl()
    ensures WellFormedDecl(GetEmailsO, Fields(GetEmailsO))
  {
  }

  lemma MailDecl()
    ensures WellFormedDecl(Mail, Fields(Mail))
  {
    MailDistinct();
    MailOrdered();
    MailHeads();
  }

  lemma MailDistinct()
    ensures DistinctNames(MailFields())
  {
    MailDistinctFrom0();
    MailDistinctFrom5();
    MailDistinctFrom10();
  }

  lemma MailDistinctFrom0()
    ensures forall i, j :: 0 <= i < 5 && i < j < |MailFields()| ==> MailFields()[i].name != MailFields()[j].name
  {
  }

  lemma MailDistinctFrom5()
    ensures forall i, j :: 5 <= i < 10 && i < j < |MailFields()| ==> MailFields()[i].name != MailFields()[j].name
  {
  }

  lemma MailDistinctFrom10()
    ensures forall i, j :: 10 <= i < j < |MailFields()| ==> MailFields()[i].name != MailFields()[j].name
  {
  }

  lemma MailOrdered()
    ensures DefaultsOrdered(MailFields())
  {
  }

  lemma MailHeads()
    ensures HeadRules(Mail, MailFields())
  {
  }

  lemma GetMailsIDecl()
    ensures WellFormedDecl(GetMailsI, Fields(GetMailsI))
  {
    GetMailsIDistinct();
    GetMailsIOrdered();
    GetMailsIHeads();
  }

  lemma GetMailsIDistinct()
    ensures DistinctNames(GetMailsIFields())
  {
  }

  lemma GetMailsIOrdered()
    ensures DefaultsOrdered(GetMailsIFields())
  {
  }

  lemma GetMailsIHeads()
    ensures HeadRules(GetMailsI, GetMailsIFields())
  {
  }

  lemma GetMailsODecl()
    ensures WellFormedDecl(GetMailsO, Fields(GetMailsO))
  {
  }

  lemma UnlockMailsIDecl()
    ensures WellFormedDecl(UnlockMailsI, Fields(UnlockMailsI))
  {
    UnlockMailsIDistinct();
    UnlockMailsIOrdered();
    UnlockMailsIHeads();
  }

  lemma UnlockMailsIDistinct()
    ensures DistinctNames(UnlockMailsIFields())
  {
  }

  lemma UnlockMailsIOrdered()
    ensures DefaultsOrdered(UnlockMailsIFields())
  {
  }

  lemma UnlockMailsIHeads()
    ensures HeadRules(UnlockMailsI, UnlockMailsIFields())
  {
  }

  lemma UnlockMailsODecl()
    ensures WellFormedDecl(UnlockMailsO, Fields(UnlockMailsO))
  {
    UnlockMailsODistinct();
    UnlockMailsOOrdered();
    UnlockMailsOHeads();
  }

  lemma UnlockMailsODistinct()
    ensures DistinctNames(UnlockMailsOFields())
  {
  }

  lemma UnlockMailsOOrdered()
    ensures DefaultsOrdered(UnlockMailsOFields())
  {
  }

  lemma UnlockMailsOHeads()
    ensures HeadRules(UnlockMailsO, UnlockMailsOFields())
  {
  }

  /** Every dataclass of alapi.py obeys the dataclass rules. */
  lemma DeclWellFormed(t: RecType)
    ensures WellFormedDecl(t, Fields(t))
  {
    match t
    case ApiResp => ApiRespDecl();
    case ApiRespError => ApiRespErrorDecl();
    case ApiRespCheck => ApiRespCheckDecl();
    case ApiReq => ApiReqDecl();
    case ApiReqAuthed => ApiReqAuthedDecl();
    case GetApiSettingsI => GetApiSettingsIDecl();
    case GetApiSettingsO => GetApiSettingsODecl();
    case GetApiInfoI => GetApiInfoIDecl();
    case GetApiInfoO => GetApiInfoODecl();
    case GetBalanceI => GetBalanceIDecl();
    case GetBalanceO => GetBalanceODecl();
    case BoughtEmail => BoughtEmailDecl();
    case BuyEmailsI => BuyEmailsIDecl();
    case BuyEmailsO => BuyEmailsODecl();
    case GetEmailsI => GetEmailsIDecl();
    case GetEmailsO => GetEmailsODecl();
    case Mail => MailDecl();
    case GetMailsI => GetMailsIDecl();
    case GetMailsO => GetMailsODecl();
    case UnlockMailsI => UnlockMailsIDecl();
    case UnlockMailsO => UnlockMailsODecl();
  }

  /** The declarations of alapi.py obey the dataclass rules. */
  lemma FieldsValid()
    ensures ValidDecls(Fields)
  {
    forall t ensures WellFormedDecl(t, Fields(t)) {
      DeclWellFormed(t);
    }
  }

  /** An `ApiEndpoint`: the path and the request and response dataclasses of one call. */
  datatype Endpoint = Endpoint(path: string, requestType: RecType, responseType: RecType)

  const GET_API_SETTINGS := Endpoint("getApiSettings", GetApiSettingsI, GetApiSettingsO)
  const GET_API_INFO := Endpoint("getApiInfo", GetApiInfoI, GetApiInfoO)
  const GET_BALANCE := Endpoint("getBalance", GetBalanceI, GetBalanceO)
  const BUY_EMAILS := Endpoint("buyEmails", BuyEmailsI, BuyEmailsO)
  const GET_EMAILS := Endpoint("getEmails", GetEmailsI, GetEmailsO)
  const GET_MAILS := Endpoint("GetMails", GetMailsI, GetMailsO)
  const UNLOCK_MAILS := Endpoint("unlockMails", UnlockMailsI, UnlockMailsO)

  const Endpoints := [GET_API_SETTINGS, GET_API_INFO, GET_BALANCE, BUY_EMAILS, GET_EMAILS, GET_MAILS, UNLOCK_MAILS]

  /** Each endpoint binds a request dataclass to a response dataclass, and no two share a path. */
  lemma EndpointsWellTyped()
    ensures forall e :: e in Endpoints ==> IsRequest(e.requestType) && IsResponse(e.responseType)
    ensures forall i, j :: 0 <= i < j < |Endpoints| ==> Endpoints[i].path != Endpoints[j].path
  {
    EndpointsTyped();
    EndpointPathsDistinct();
  }

  lemma EndpointsTyped()
    ensures forall e :: e in Endpoints ==> IsRequest(e.requestType) && IsResponse(e.responseType)
  {
  }

  lemma EndpointPathsDistinct()
    ensures forall i, j :: 0 <= i < j < |Endpoints| ==> Endpoints[i].path != Endpoints[j].path
  {
  }
}
