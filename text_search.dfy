/**
 * The text search adapter. When the module loads it builds a search client
 * from two environment values, if both are set, and opens three named
 * indices on it; the controller then maps a collection path to one of those
 * indices. The vendor client, its indices and the search call itself are not
 * modelled: they appear as values that record what was asked of the vendor.
 */
module TextSearch {
  import opened Common

  /** `process.env`, restricted to the two search credentials. */
  datatype Env = Env(appId: Option<string>, searchKey: Option<string>)

  /** The client the vendor constructor returns, identified by the credentials it was given. */
  datatype SearchClient = SearchClient(appId: string, searchKey: string)

  /** `client.initIndex(name)`. */
  datatype SearchIndex = SearchIndex(client: SearchClient, name: string)

  /** `performAlgoliaTextSearch(index, searchString)`. */
  datatype SearchCall = SearchCall(index: SearchIndex, searchString: string)

  /** The module-level values fixed at load time. */
  datatype Loaded = Loaded(
    client: Option<SearchClient>,
    productsIndex: Option<SearchIndex>,
    usersIndex: Option<SearchIndex>,
    blogIndex: Option<SearchIndex>,
    loggedNotEnabled: bool
  )

  const ProductsPath := "products"
  const UsersPath := "users"
  const BlogPath := "blog"

  /** Both credentials are non-empty strings. */
  predicate Configured(env: Env)
  {
    Truthy(env.appId) && Truthy(env.searchKey)
  }

  /** `client && client.initIndex(name)`. */
  function IndexOn(client: Option<SearchClient>, name: string): (r: Option<SearchIndex>)
    ensures r.Some? <==> client.Some?
    ensures r.Some? ==> r.value == SearchIndex(client.value, name)
  {
    if client.None? then None else Some(SearchIndex(client.value, name))
  }

  /**
   * Loading the module. `process` is `None` when it is undefined. The error
   * log belongs to the `else` of the outer test, so it is written when
   * `process` is undefined and not when a credential is missing.
   */
  function Load(process: Option<Env>): (r: Loaded)
    ensures r.client.Some? <==> process.Some? && Configured(process.value)
    ensures r.client.Some? ==> r.client.value == SearchClient(process.value.appId.value, process.value.searchKey.value)
    ensures r.productsIndex == IndexOn(r.client, ProductsPath)
    ensures r.usersIndex == IndexOn(r.client, UsersPath)
    ensures r.blogIndex == IndexOn(r.client, BlogPath)
    ensures r.loggedNotEnabled <==> process.None?
  {
    var client :=
      if process.Some? && Configured(process.value)
      then Some(SearchClient(process.value.appId.value, process.value.searchKey.value))
      else None;
    Loaded(client, IndexOn(client, ProductsPath), IndexOn(client, UsersPath), IndexOn(client, BlogPath), process.None?)
  }

  /** `index && performAlgoliaTextSearch(index, searchString)`. */
  function SearchOn(index: Option<SearchIndex>, searchString: string): (r: Option<SearchCall>)
    ensures r.Some? <==> index.Some?
    ensures r.Some? ==> r.value == SearchCall(index.value, searchString)
  {
    if index.None? then None else Some(SearchCall(index.value, searchString))
  }

  /** `textSearchController`: route the three known paths to their index; anything else has no search. */
  function TextSearchController(loaded: Loaded, path: string, searchString: string): (r: Option<SearchCall>)
    ensures path == ProductsPath ==> r == SearchOn(loaded.productsIndex, searchString)
    ensures path == UsersPath ==> r == SearchOn(loaded.usersIndex, searchString)
    ensures path == BlogPath ==> r == SearchOn(loaded.blogIndex, searchString)
    ensures path !in {ProductsPath, UsersPath, BlogPath} ==> r.None?
  {
    if path == ProductsPath then SearchOn(loaded.productsIndex, searchString)
    else if path == UsersPath then SearchOn(loaded.usersIndex, searchString)
    else if path == BlogPath then SearchOn(loaded.blogIndex, searchString)
    else None
  }

  /**
   * After loading, a search is issued exactly for the three known paths and
   * only when both credentials are set; it goes to the index named after the
   * path, on the client built from those credentials, with the query unchanged.
   */
  lemma SearchRouting(process: Option<Env>, path: string, searchString: string)
    ensures var r := TextSearchController(Load(process), path, searchString);
      && (r.Some? <==> path in {ProductsPath, UsersPath, BlogPath} && process.Some? && Configured(process.value))
      && (r.Some? ==> r.value.index.name == path && r.value.searchString == searchString)
      && (r.Some? ==> r.value.index.client == SearchClient(process.value.appId.value, process.value.searchKey.value))
  {
  }

  /** A defined `process` with a missing or empty credential leaves search off without logging anything. */
  lemma MissingCredentialsAreSilent(env: Env)
    requires !Configured(env)
    ensures Load(Some(env)).client.None? && !Load(Some(env)).loggedNotEnabled
    ensures forall path, q :: TextSearchController(Load(Some(env)), path, q).None?
  {
  }
}
