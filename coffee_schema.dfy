/**
 * The coffee collection: the record a coffee form holds, the value sets and
 * array bounds its schema declares, and the two lifecycle hooks. `onPreSave`
 * works on the caller's values object in place: it stamps the creator's uid
 * on new records, refuses a record without a company, and copies the company
 * id into the denormalised `company_id`. `onPreDelete` lets only users of
 * one e-mail domain delete.
 */
module CoffeeSchema {
  import opened Common

  // ---------------------------------------------------------------------------
  // Declared value sets

  /** The five levels offered for each of the four taste properties. */
  datatype TasteLevel = VeryLow | Low | Average | High | VeryHigh

  function TasteKey(t: TasteLevel): string
  {
    match t
    case VeryLow => "very_low"
    case Low => "low"
    case Average => "average"
    case High => "high"
    case VeryHigh => "very_high"
  }

  const TasteKeys: set<string> := {"very_low", "low", "average", "high", "very_high"}

  /** Reads a stored taste value back as a level; any other text is not a level. */
  function ParseTaste(s: string): (r: Option<TasteLevel>)
    ensures r.Some? <==> s in TasteKeys
    ensures r.Some? ==> TasteKey(r.value) == s
  {
    if s == "very_low" then Some(VeryLow)
    else if s == "low" then Some(Low)
    else if s == "average" then Some(Average)
    else if s == "high" then Some(High)
    else if s == "very_high" then Some(VeryHigh)
    else None
  }

  /** Every level is stored under a key of the declared set and read back as itself. */
  lemma TasteRoundTrip(t: TasteLevel)
    ensures TasteKey(t) in TasteKeys && ParseTaste(TasteKey(t)) == Some(t)
  {
  }

  /** The kinds offered for `type`. */
  datatype CoffeeKind = Blend | SingleOrigin | Decaffeination

  function KindKey(k: CoffeeKind): string
  {
    match k
    case Blend => "blend"
    case SingleOrigin => "single_origin"
    case Decaffeination => "decaffeination"
  }

  const KindKeys: set<string> := {"blend", "single_origin", "decaffeination"}

  function ParseKind(s: string): (r: Option<CoffeeKind>)
    ensures r.Some? <==> s in KindKeys
    ensures r.Some? ==> KindKey(r.value) == s
  {
    if s == "blend" then Some(Blend)
    else if s == "single_origin" then Some(SingleOrigin)
    else if s == "decaffeination" then Some(Decaffeination)
    else None
  }

  lemma KindRoundTrip(k: CoffeeKind)
    ensures KindKey(k) in KindKeys && ParseKind(KindKey(k)) == Some(k)
  {
  }

  /** The degrees offered for `roasting`. */
  datatype RoastLevel = Light | LightMedium | Medium | MediumDark | Dark

  function RoastKey(r: RoastLevel): string
  {
    match r
    case Light => "light"
    case LightMedium => "light_medium"
    case Medium => "medium"
    case MediumDark => "medium_dark"
    case Dark => "dark"
  }

  const RoastKeys: set<string> := {"light", "light_medium", "medium", "medium_dark", "dark"}

  function ParseRoast(s: string): (r: Option<RoastLevel>)
    ensures r.Some? <==> s in RoastKeys
    ensures r.Some? ==> RoastKey(r.value) == s
  {
    if s == "light" then Some(Light)
    else if s == "light_medium" then Some(LightMedium)
    else if s == "medium" then Some(Medium)
    else if s == "medium_dark" then Some(MediumDark)
    else if s == "dark" then Some(Dark)
    else None
  }

  lemma RoastRoundTrip(r: RoastLevel)
    ensures RoastKey(r) in RoastKeys && ParseRoast(RoastKey(r)) == Some(r)
  {
  }

  // ---------------------------------------------------------------------------
  // The record

  /**
   * The values of a coffee form. Every field may be missing while the form is
   * being filled; timestamps are kept as numbers.
   */
  datatype Coffee = Coffee(
    name: Option<string>,
    imageUrl: Option<string>,
    description: Option<string>,
    flavors: Option<seq<string>>,
    tags: Option<seq<string>>,
    tasteBody: Option<string>,
    tasteSweet: Option<string>,
    tasteBitter: Option<string>,
    tasteSour: Option<string>,
    kind: Option<string>,
    roasting: Option<string>,
    roastingDate: Option<int>,
    process: Option<string>,
    isPublic: Option<bool>,
    company: Option<EntityReference>,
    companyId: Option<string>,
    relatedCoffee: Option<seq<EntityReference>>,
    uid: Option<string>,
    createdAt: Option<int>
  )

  const MaxFlavors := 3
  const MaxTags := 4
  const MaxRelatedCoffee := 4

  /** A missing value, or one of the declared keys. */
  predicate InSet(v: Option<string>, keys: set<string>)
  {
    v.None? || v.value in keys
  }

  /** A missing array, or one with at most `max` entries (every declared minimum is 0). */
  predicate WithinBound<T>(v: Option<seq<T>>, max: nat)
  {
    v.None? || |v.value| <= max
  }

  /** The value sets and array bounds the schema declares for a coffee. */
  predicate ConformsToSchema(c: Coffee)
  {
    && InSet(c.tasteBody, TasteKeys)
    && InSet(c.tasteSweet, TasteKeys)
    && InSet(c.tasteBitter, TasteKeys)
    && InSet(c.tasteSour, TasteKeys)
    && InSet(c.kind, KindKeys)
    && InSet(c.roasting, RoastKeys)
    && WithinBound(c.flavors, MaxFlavors)
    && WithinBound(c.tags, MaxTags)
    && WithinBound(c.relatedCoffee, MaxRelatedCoffee)
  }

  /**
   * A record within the declared value sets holds, in each enumerated field,
   * either nothing or the stored key of a taste level, coffee kind or roast
   * degree.
   */
  lemma ConformingEnumsParse(c: Coffee)
    requires ConformsToSchema(c)
    ensures forall v :: v in [c.tasteBody, c.tasteSweet, c.tasteBitter, c.tasteSour] && v.Some? ==>
      ParseTaste(v.value).Some? && TasteKey(ParseTaste(v.value).value) == v.value
    ensures c.kind.Some? ==> ParseKind(c.kind.value).Some? && KindKey(ParseKind(c.kind.value).value) == c.kind.value
    ensures c.roasting.Some? ==> ParseRoast(c.roasting.value).Some? && RoastKey(ParseRoast(c.roasting.value).value) == c.roasting.value
  {
  }

  /** The fields the schema marks required. */
  predicate HasRequiredFields(c: Coffee)
  {
    && c.name.Some? && c.imageUrl.Some? && c.description.Some?
    && c.flavors.Some? && c.tags.Some? && c.company.Some?
  }

  // ---------------------------------------------------------------------------
  // onPreSave

  /** The save status the framework passes to the hook. */
  datatype EntityStatus = New | Existing | Copy

  const NoCompanyError := "회사를 선택하지 않았거나, 회사가 존재하지 않습니다."

  /** Reading `user.uid` of a missing user throws a TypeError. */
  const NoUserError := "TypeError: Cannot read properties of null (reading 'uid')"

  /** `values.company?.id` is truthy: a company is set and its id is not empty. */
  predicate HasCompanyId(c: Coffee)
  {
    c.company.Some? && c.company.value.id != ""
  }

  /**
   * The first step of the hook: for a new record, `uid` becomes the acting
   * user's uid (throwing when there is no user); any other status leaves the
   * record alone.
   */
  function StampUid(c: Coffee, status: EntityStatus, actor: Option<User>): (r: Result<Coffee>)
    ensures status != New ==> r == Ok(c)
    ensures status == New ==> (r.Ok? <==> actor.Some?)
    ensures r.Rejected? ==> r.message == NoUserError
    ensures status == New && actor.Some? ==> r == Ok(c.(uid := Some(actor.value.uid)))
  {
    if status != New then Ok(c)
    else if actor.None? then Rejected(NoUserError)
    else Ok(c.(uid := Some(actor.value.uid)))
  }

  /**
   * What `onPreSave` returns for `values`: the stamped record with
   * `company_id` set to the company's id, or the error it throws.
   */
  function PreSave(c: Coffee, status: EntityStatus, actor: Option<User>): (r: Result<Coffee>)
    ensures r.Rejected? <==> !HasCompanyId(c) || (status == New && actor.None?)
    ensures r.Rejected? ==> r.message == (if status == New && actor.None? then NoUserError else NoCompanyError)
    ensures r.Ok? ==> r.value.companyId == Some(c.company.value.id)
    ensures r.Ok? ==> r.value.uid == (if status == New then Some(actor.value.uid) else c.uid)
    ensures r.Ok? ==> r.value == c.(uid := r.value.uid, companyId := r.value.companyId)
  {
    match StampUid(c, status, actor)
    case Rejected(m) => Rejected(m)
    case Ok(stamped) =>
      if !HasCompanyId(stamped) then Rejected(NoCompanyError)
      else Ok(stamped.(companyId := Some(stamped.company.value.id)))
  }

  /** Saving the hook's own output again, with the same status and user, returns it unchanged. */
  lemma PreSaveIdempotent(c: Coffee, status: EntityStatus, actor: Option<User>)
    requires PreSave(c, status, actor).Ok?
    ensures PreSave(PreSave(c, status, actor).value, status, actor) == PreSave(c, status, actor)
  {
  }

  /** The hook keeps the declared value sets, bounds and required fields, and afterwards `company_id` mirrors `company.id`. */
  lemma PreSavePreservesSchema(c: Coffee, status: EntityStatus, actor: Option<User>)
    requires PreSave(c, status, actor).Ok?
    ensures ConformsToSchema(c) ==> ConformsToSchema(PreSave(c, status, actor).value)
    ensures HasRequiredFields(c) ==> HasRequiredFields(PreSave(c, status, actor).value)
    ensures var saved := PreSave(c, status, actor).value;
      HasCompanyId(saved) && saved.companyId == Some(saved.company.value.id)
  {
  }

  /**
   * The values object the framework hands to `onPreSave`. The hook writes
   * into it and returns it, so a write made before the hook throws stays
   * visible to the caller.
   */
  class CoffeeValues {
    var values: Coffee

    constructor (initial: Coffee)
      ensures values == initial
    {
      values := initial;
    }

    /** `coffeeCallbacks.onPreSave`: stamp `uid`, check the company, set `company_id`. */
    method OnPreSave(status: EntityStatus, actor: Option<User>) returns (r: Result<Coffee>)
      modifies this
      ensures r == PreSave(old(values), status, actor)
      ensures r.Ok? ==> values == r.value
      ensures r.Rejected? && status == New && actor.Some? ==> values == old(values).(uid := Some(actor.value.uid))
      ensures r.Rejected? && !(status == New && actor.Some?) ==> values == old(values)
    {
      if status == New {
        if actor.None? {
          r := Rejected(NoUserError);
          return;
        }
        values := values.(uid := Some(actor.value.uid));
      }
      if !HasCompanyId(values) {
        r := Rejected(NoCompanyError);
        return;
      }
      values := values.(companyId := Some(values.company.value.id));
      r := Ok(values);
    }
  }

  // ---------------------------------------------------------------------------
  // onPreDelete

  const AllowedDeleteDomain := "@camberi.com"
  const DeleteNotAllowedError := "Cofffe deletion not allowed in this demo"

  /** `onPreDelete` either lets the deletion go ahead or throws. */
  datatype DeleteDecision = DeleteAllowed | DeleteRefused(message: string)

  /** `coffeeCallbacks.onPreDelete`: refuse unless the acting user's e-mail is set, non-empty and ends with the domain. */
  function OnPreDelete(actor: Option<User>): (r: DeleteDecision)
    ensures r.DeleteAllowed? <==> actor.Some? && actor.value.email.Some? && EndsWith(actor.value.email.value, AllowedDeleteDomain)
    ensures r.DeleteRefused? ==> r.message == DeleteNotAllowedError
  {
    var email := if actor.Some? then actor.value.email else None;
    if !Truthy(email) || !EndsWith(email.value, AllowedDeleteDomain)
    then DeleteRefused(DeleteNotAllowedError)
    else DeleteAllowed
  }

  /**
   * Deletion is allowed exactly for users whose e-mail is some text followed
   * by `@camberi.com`; a missing user or e-mail, and an empty e-mail, are refused.
   */
  lemma OnPreDeleteAllowsOnlyDomain(actor: Option<User>)
    ensures OnPreDelete(actor).DeleteAllowed? <==>
      actor.Some? && actor.value.email.Some? && exists local :: actor.value.email.value == local + AllowedDeleteDomain
    ensures actor.Some? && actor.value.email == Some("") ==> OnPreDelete(actor).DeleteRefused?
  {
    if actor.Some? && actor.value.email.Some? {
      EndsWithSpec(actor.value.email.value, AllowedDeleteDomain);
    }
  }
}
