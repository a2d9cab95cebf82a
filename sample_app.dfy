/**
 * The application wiring of `SampleApp`: the authenticator that gates login
 * and stores a role payload on the session, the per-collection permission
 * rules that read that payload, the navigation builder, and the two computed
 * table columns (users and test entity).
 */
module SampleApp {
  import opened Common
  import TextSearch

  // ---------------------------------------------------------------------------
  // Authentication and roles

  /** An e-mail containing this text is refused at login. */
  const BlockedEmailText := "flanders"
  const BlockedEmailError := "Stupid Flanders!"

  /** The two uids that receive the `admin` role. */
  const AdminUidA := "OpFd3p9XfhXrY4mxeavWjnViLYB3"
  const AdminUidB := "ptyL86Mqu8gBqhobO5UVU37EBFx1"
  const AdminRole := "admin"

  /** The payload stored with `authController.setExtra`. */
  datatype RoleData = RoleData(roles: seq<string>)

  /**
   * What the authenticator does for one login attempt: either it throws,
   * before anything is stored, or it stores `extra` on the session and
   * returns `allowed`.
   */
  datatype AuthOutcome =
    | AuthRejected(message: string)
    | AuthDecided(extra: RoleData, allowed: bool)

  /** `user?.email?.includes('flanders')`: a missing user or e-mail is never blocked. */
  predicate EmailBlocked(user: Option<User>)
  {
    user.Some? && user.value.email.Some? && Includes(user.value.email.value, BlockedEmailText)
  }

  /** The role payload chosen for `user`: the admin role for the two listed uids, no roles otherwise. */
  function RoleDataFor(user: Option<User>): (r: RoleData)
    ensures user.Some? && user.value.uid in {AdminUidA, AdminUidB} ==> r.roles == [AdminRole]
    ensures !(user.Some? && user.value.uid in {AdminUidA, AdminUidB}) ==> r.roles == []
  {
    if user.Some? && (user.value.uid == AdminUidA || user.value.uid == AdminUidB)
    then RoleData([AdminRole])
    else RoleData([])
  }

  /** `myAuthenticator`: refuse blocked e-mails, otherwise record the role payload and allow iff a user is present. */
  function Authenticate(user: Option<User>): (r: AuthOutcome)
    ensures r.AuthRejected? <==> EmailBlocked(user)
    ensures r.AuthRejected? ==> r.message == BlockedEmailError
    ensures r.AuthDecided? ==> (r.allowed <==> user.Some?)
    ensures r.AuthDecided? ==> r.extra == RoleDataFor(user)
    ensures r.AuthDecided? ==> (AdminRole in r.extra.roles <==> user.Some? && user.value.uid in {AdminUidA, AdminUidB})
  {
    if EmailBlocked(user) then AuthRejected(BlockedEmailError)
    else AuthDecided(RoleDataFor(user), user.Some?)
  }

  /** A user whose e-mail contains `flanders` anywhere is refused, whatever the uid, even an admin uid. */
  lemma BlockedEmailAlwaysRejected(uid: string, before: string, after: string)
    ensures Authenticate(Some(User(uid, Some(before + BlockedEmailText + after)))) == AuthRejected(BlockedEmailError)
  {
    IncludesInfix(before, BlockedEmailText, after);
  }

  /** Without a user nothing is blocked: the session gets an empty role list and is refused. */
  lemma NoUserDenied()
    ensures Authenticate(None) == AuthDecided(RoleData([]), false)
  {
  }

  // ---------------------------------------------------------------------------
  // Permissions

  /** The triple a collection's `permissions` callback returns. */
  datatype Permissions = Permissions(edit: bool, create: bool, delete: bool)

  /** `authController.extra?.roles.includes('admin')`, with a missing payload read as false. */
  predicate IsAdmin(extra: Option<RoleData>)
  {
    extra.Some? && AdminRole in extra.value.roles
  }

  /** Products: anyone may edit and create; only admins may delete. */
  function ProductsPermissions(extra: Option<RoleData>): (p: Permissions)
    ensures p.edit && p.create
    ensures p.delete <==> IsAdmin(extra)
  {
    Permissions(true, true, IsAdmin(extra))
  }

  /** Coffees: every action is for admins only. */
  function CoffeesPermissions(extra: Option<RoleData>): (p: Permissions)
    ensures p.edit <==> IsAdmin(extra)
    ensures p.create <==> IsAdmin(extra)
    ensures p.delete <==> IsAdmin(extra)
  {
    var admin := IsAdmin(extra);
    Permissions(admin, admin, admin)
  }

  /** Companies: read-only for every session. */
  function CompaniesPermissions(extra: Option<RoleData>): (p: Permissions)
    ensures !p.edit && !p.create && !p.delete
  {
    Permissions(false, false, false)
  }

  /** Blog: every action is for admins only. */
  function BlogPermissions(extra: Option<RoleData>): (p: Permissions)
    ensures p.edit <==> IsAdmin(extra)
    ensures p.create <==> IsAdmin(extra)
    ensures p.delete <==> IsAdmin(extra)
  {
    var admin := IsAdmin(extra);
    Permissions(admin, admin, admin)
  }

  /** `a` allows at most what `b` allows. */
  predicate NoMoreThan(a: Permissions, b: Permissions)
  {
    (a.edit ==> b.edit) && (a.create ==> b.create) && (a.delete ==> b.delete)
  }

  /**
   * After a successful login the stored payload makes a session an admin
   * exactly for the two listed uids, so coffee and blog writes and product
   * deletion are granted to those two users and to nobody else; companies
   * stay read-only, and products are never stricter than coffees or blog.
   */
  lemma PermissionsAfterLogin(user: Option<User>)
    requires Authenticate(user).AuthDecided?
    ensures var extra := Some(Authenticate(user).extra);
      && (IsAdmin(extra) <==> user.Some? && user.value.uid in {AdminUidA, AdminUidB})
      && (CoffeesPermissions(extra).delete <==> IsAdmin(extra))
      && (ProductsPermissions(extra).delete <==> IsAdmin(extra))
      && CoffeesPermissions(extra) == BlogPermissions(extra)
      && NoMoreThan(CoffeesPermissions(extra), ProductsPermissions(extra))
      && NoMoreThan(CompaniesPermissions(extra), CoffeesPermissions(extra))
  {
  }

  // ---------------------------------------------------------------------------
  // Navigation

  /** The part of a collection declaration the navigation and search rely on. */
  datatype Collection = Collection(path: string, name: string, group: string, textSearchEnabled: bool)

  /** A custom top-level view: the routes it answers and where it is listed. */
  datatype CustomView = CustomView(paths: seq<string>, name: string, group: string)

  datatype Navigation = Navigation(collections: seq<Collection>, views: seq<CustomView>)

  const ProductsCollection := Collection("products", "Products", "Main", true)
  const CoffeesCollection := Collection("coffees", "Coffees", "Main", true)
  const CompaniesCollection := Collection("companies", "Companies", "Admin", true)
  const UsersCollection := Collection("users", "Users", "Admin", true)
  const BlogCollection := Collection("blog", "Blog", "Content", true)

  const AdditionalView := CustomView(["additional", "additional/:id"], "Additional", "Content")

  const ProductionMode := "production"

  /**
   * The navigation builder: coffees and blog, then companies pushed on the
   * end unless `NODE_ENV` is `production` (an unset `NODE_ENV` is not
   * `production`). The session is only logged, so it is not a parameter.
   */
  method BuildNavigation(nodeEnv: Option<string>) returns (nav: Navigation)
    ensures nav.views == [AdditionalView]
    ensures 2 <= |nav.collections| <= 3
    ensures nav.collections[0] == CoffeesCollection && nav.collections[1] == BlogCollection
    ensures |nav.collections| == 3 <==> nodeEnv != Some(ProductionMode)
    ensures |nav.collections| == 3 ==> nav.collections[2] == CompaniesCollection
    ensures CompaniesCollection in nav.collections <==> nodeEnv != Some(ProductionMode)
    ensures ProductsCollection !in nav.collections && UsersCollection !in nav.collections
  {
    nav := Navigation([CoffeesCollection, BlogCollection], [AdditionalView]);
    if nodeEnv != Some(ProductionMode) {
      nav := nav.(collections := nav.collections + [CompaniesCollection]);
    }
  }

  /**
   * Coffees and companies are declared searchable, but the search controller
   * routes neither path, so a search in them never reaches an index; blog is
   * the one collection in the navigation whose search can run, and only with
   * the credentials set.
   */
  lemma NavigationSearchCoverage(process: Option<TextSearch.Env>, q: string)
    ensures CoffeesCollection.textSearchEnabled
      && TextSearch.TextSearchController(TextSearch.Load(process), CoffeesCollection.path, q).None?
    ensures CompaniesCollection.textSearchEnabled
      && TextSearch.TextSearchController(TextSearch.Load(process), CompaniesCollection.path, q).None?
    ensures TextSearch.TextSearchController(TextSearch.Load(process), BlogCollection.path, q).Some?
      <==> process.Some? && TextSearch.Configured(process.value)
  {
    TextSearch.SearchRouting(process, BlogCollection.path, q);
  }

  // ---------------------------------------------------------------------------
  // Computed columns

  const GeneratedColumnPrefix := "Generated column: "

  /** A template literal renders a missing value as the text `undefined`. */
  function TemplateText(v: Option<string>): string
  {
    if v.Some? then v.value else "undefined"
  }

  /** The users table's `sample_additional` column, built from `first_name`. */
  function UsersAdditionalColumn(firstName: Option<string>): (r: string)
    ensures StartsWith(r, GeneratedColumnPrefix)
    ensures r[|GeneratedColumnPrefix|..] == TemplateText(firstName)
  {
    GeneratedColumnPrefix + TemplateText(firstName)
  }

  /** Two users get the same column text exactly when their first names render the same. */
  lemma UsersAdditionalColumnInjective(a: Option<string>, b: Option<string>)
    ensures UsersAdditionalColumn(a) == UsersAdditionalColumn(b) <==> TemplateText(a) == TemplateText(b)
  {
    if UsersAdditionalColumn(a) == UsersAdditionalColumn(b) {
      assert UsersAdditionalColumn(a)[|GeneratedColumnPrefix|..] == UsersAdditionalColumn(b)[|GeneratedColumnPrefix|..];
    }
  }

  /** The value of `name` as far as a `typeof … === 'string'` test sees it. */
  datatype FieldValue = StringValue(s: string) | NotAString

  const NotAStringName := "Nope"

  /** The test entity's `full_name` column: the upper-cased name, or `Nope` when the name is not a string. */
  function TestFullNameColumn(name: FieldValue): (r: string)
    ensures name.StringValue? ==> |r| == |name.s|
    ensures name.StringValue? ==> forall i :: 0 <= i < |r| ==> r[i] == UpperChar(name.s[i])
    ensures name.NotAString? ==> r == NotAStringName
  {
    match name
    case StringValue(s) => ToUpper(s)
    case NotAString => NotAStringName
  }

  /**
   * For a string name the column holds no lower-case ASCII letter, and
   * recomputing it from its own text gives it back; `Nope` is not stable,
   * since it is not upper case.
   */
  lemma TestFullNameColumnStable(name: FieldValue)
    ensures name.StringValue? ==> forall i :: 0 <= i < |TestFullNameColumn(name)| ==> !('a' <= TestFullNameColumn(name)[i] <= 'z')
    ensures name.StringValue? <==> TestFullNameColumn(StringValue(TestFullNameColumn(name))) == TestFullNameColumn(name)
  {
    if name.StringValue? {
      ToUpperIdempotent(name.s);
    } else {
      assert ToUpper(NotAStringName)[1] == 'O' != NotAStringName[1];
    }
  }
}
