/**
 * The account resource (form3/accounts.go): the account records, the paths
 * the four operations send their requests to, and the operations themselves,
 * each a composition of NewRequest and Do with a fixed way of passing the
 * result, the response and the error back to the caller.
 */
module Accounts {
  import opened Wrappers
  import opened Text
  import opened Urls
  import opened Form3

  /** The path of the account collection, relative to the versioned base URL. */
  const AccountsPath: string := "organisation/accounts"

  const MethodPost: string := "POST"
  const MethodGet: string := "GET"
  const MethodDelete: string := "DELETE"

  /** The banking details of an account; which of them are required depends on country and scheme. */
  datatype AccountAttributes = AccountAttributes(
    country: string,
    baseCurrency: string,
    accountNumber: string,
    bankID: string,
    bankIDCode: string,
    bic: string,
    iban: string,
    customerID: string,
    name: seq<string>,
    alternativeNames: seq<string>,
    accountClassification: string,
    jointAccount: bool,
    accountMatchingOptOut: bool,
    secondaryIdentification: string,
    switched: bool,
    status: string)

  /** One account record: its type, identifiers, version and attributes, and the server's timestamps. */
  datatype AccountData = AccountData(
    kind: string,
    id: string,
    organisationID: string,
    version: int,
    attributes: Option<AccountAttributes>,
    createdOn: string,
    modifiedOn: string)

  /** The {"data": ...} envelope of a single account. */
  datatype Account = Account(data: Option<AccountData>)

  /** The {"data": [...]} envelope of a list of accounts, in the server's order. */
  datatype AccountList = AccountList(data: seq<Option<AccountData>>)

  /** The JSON codec as the operations use it, including the decoding of an error body's "error_message". */
  datatype AccountCodec = AccountCodec(
    encodeAccount: Account -> Result<string, Error>,
    decodeAccount: string -> Result<Account, Error>,
    decodeAccountList: string -> Result<AccountList, Error>,
    decodeErrorMessage: string -> Result<string, Error>)

  /** Decoding what was encoded gives back the same account. */
  ghost predicate RoundTrips(codec: AccountCodec) {
    forall a :: codec.encodeAccount(a).Success? ==> codec.decodeAccount(codec.encodeAccount(a).value) == Success(a)
  }

  // ---------------------------------------------------------------------------
  // Paths
  // ---------------------------------------------------------------------------

  /** The path Fetch uses: the collection path, '/', and the id as given (not escaped). */
  function AccountPath(accountID: string): string {
    AccountsPath + "/" + accountID
  }

  const PageNumberKey: string := "page[number]"
  const PageSizeKey: string := "page[size]"
  const VersionKey: string := "version"

  /** The page query: both parameters in decimal, unchecked. */
  function ListQuery(pageNumber: int, pageSize: int): string {
    QueryField(PageNumberKey, FormatInt(pageNumber)) + "&" + QueryField(PageSizeKey, FormatInt(pageSize))
  }

  /** The path List uses: the collection path with both page parameters in decimal, unchecked. */
  function ListPath(pageNumber: int, pageSize: int): string {
    AccountsPath + "?" + ListQuery(pageNumber, pageSize)
  }

  function DeleteQuery(version: int): string {
    QueryField(VersionKey, FormatInt(version))
  }

  /** The path Delete uses: the account's path with its version in decimal. */
  function DeletePath(accountID: string, version: int): string {
    AccountPath(accountID) + "?" + DeleteQuery(version)
  }

  /** An id that net/url reads as a single plain path segment. */
  predicate PlainId(accountID: string) {
    NoDelimiting(accountID) && '/' !in accountID && '?' !in accountID && accountID != "." && accountID != ".."
  }

  lemma AccountsPathPlain()
    ensures NoDelimiting(AccountsPath) && NoDotSegments(AccountsPath)
    ensures '?' !in AccountsPath && !StartsWith(AccountsPath, "/")
  {
    assert AccountsPath[0] == 'o';
  }

  lemma FormatIntPlain(n: int)
    ensures NoDelimiting(FormatInt(n))
    ensures '?' !in FormatInt(n) && '&' !in FormatInt(n) && '=' !in FormatInt(n)
  {
    FormatIntChars(n);
  }

  lemma FieldPlain(key: string, n: int)
    requires NoDelimiting(key)
    ensures NoDelimiting(QueryField(key, FormatInt(n)))
  {
    FormatIntPlain(n);
    NoDelimitingConcat(key, "=");
    NoDelimitingConcat(key + "=", FormatInt(n));
  }

  /** The account path of a plain id is a modelled reference without query. */
  lemma AccountPathReference(accountID: string)
    requires PlainId(accountID)
    ensures ModelledReference(AccountPath(accountID))
    ensures SplitReference(AccountPath(accountID)) == Reference(AccountPath(accountID), None)
  {
    var p := AccountPath(accountID);
    AccountsPathPlain();
    assert '?' !in p by {
      assert forall i :: 0 <= i < |p| ==> p[i] == (if i < |AccountsPath| then AccountsPath[i] else if i == |AccountsPath| then '/' else accountID[i - |AccountsPath| - 1]);
    }
    CutAbsent(p, '?');
    NoDelimitingConcat(AccountsPath + "/", accountID);
    PlainSegment(accountID);
    NoDotSegmentsJoin(AccountsPath, accountID);
  }

  /**
   * Fetch's path resolves under the base path: for a base path rooted and ending in
   * '/', the URL path is the base path followed by organisation/accounts/<id>.
   */
  lemma AccountURL(base: Url, accountID: string)
    requires StartsWith(base.path, "/") && EndsWith(base.path, "/")
    requires PlainId(accountID)
    ensures Resolve(base, SplitReference(AccountPath(accountID)))
         == Url(base.scheme, base.host, base.path + "organisation/accounts/" + accountID, None)
  {
    AccountPathReference(accountID);
    ResolveUnderDirectory(base, AccountPath(accountID));
  }

  /** List's path is always a modelled reference: the collection path and the page query. */
  lemma ListPathReference(pageNumber: int, pageSize: int)
    ensures ModelledReference(ListPath(pageNumber, pageSize))
    ensures SplitReference(ListPath(pageNumber, pageSize)) == Reference(AccountsPath, Some(ListQuery(pageNumber, pageSize)))
  {
    AccountsPathPlain();
    var q := ListQuery(pageNumber, pageSize);
    CutAt(AccountsPath, '?', q);
    assert ListPath(pageNumber, pageSize) == AccountsPath + ['?'] + q;
    ListQueryPlain(pageNumber, pageSize);
    NoDelimitingConcat(AccountsPath, "?");
    NoDelimitingConcat(AccountsPath + "?", q);
  }

  lemma ListQueryPlain(pageNumber: int, pageSize: int)
    ensures NoDelimiting(ListQuery(pageNumber, pageSize))
  {
    var first := QueryField(PageNumberKey, FormatInt(pageNumber));
    FieldPlain(PageNumberKey, pageNumber);
    FieldPlain(PageSizeKey, pageSize);
    NoDelimitingConcat(first, "&");
    NoDelimitingConcat(first + "&", QueryField(PageSizeKey, FormatInt(pageSize)));
  }

  /** List's URL: the collection under the base path, with the page query. */
  lemma ListURL(base: Url, pageNumber: int, pageSize: int)
    requires StartsWith(base.path, "/") && EndsWith(base.path, "/")
    ensures Resolve(base, SplitReference(ListPath(pageNumber, pageSize)))
         == Url(base.scheme, base.host, base.path + AccountsPath, Some(ListQuery(pageNumber, pageSize)))
  {
    ListPathReference(pageNumber, pageSize);
    ResolveUnderDirectory(base, ListPath(pageNumber, pageSize));
  }

  /** A server reading List's query gets back both page parameters, as decimal text and as the integers sent. */
  lemma ListQueryParameters(pageNumber: int, pageSize: int)
    ensures QueryValue(ListQuery(pageNumber, pageSize), PageNumberKey) == Some(FormatInt(pageNumber))
    ensures QueryValue(ListQuery(pageNumber, pageSize), PageSizeKey) == Some(FormatInt(pageSize))
    ensures ParseInt(FormatInt(pageNumber)) == Some(pageNumber) && ParseInt(FormatInt(pageSize)) == Some(pageSize)
  {
    var n, m := FormatInt(pageNumber), FormatInt(pageSize);
    FormatIntPlain(pageNumber);
    FormatIntPlain(pageSize);
    FormatIntRoundTrip(pageNumber);
    FormatIntRoundTrip(pageSize);
    QueryFirst(PageNumberKey, n, QueryField(PageSizeKey, m));
    QuerySkip(PageNumberKey, n, QueryField(PageSizeKey, m), PageSizeKey);
    QueryOnly(PageSizeKey, m);
  }

  /** Delete's path is a modelled reference for a plain id: the account path and the version query. */
  lemma DeletePathReference(accountID: string, version: int)
    requires PlainId(accountID)
    ensures ModelledReference(DeletePath(accountID, version))
    ensures SplitReference(DeletePath(accountID, version)) == Reference(AccountPath(accountID), Some(DeleteQuery(version)))
  {
    AccountPathReference(accountID);
    FormatIntPlain(version);
    var p, q := AccountPath(accountID), DeleteQuery(version);
    CutAt(p, '?', q);
    assert DeletePath(accountID, version) == p + ['?'] + q;
    FieldPlain(VersionKey, version);
    NoDelimitingConcat(p + "?", q);
  }

  /** Delete's URL: the account under the base path, with the version query. */
  lemma DeleteURL(base: Url, accountID: string, version: int)
    requires StartsWith(base.path, "/") && EndsWith(base.path, "/")
    requires PlainId(accountID)
    ensures Resolve(base, SplitReference(DeletePath(accountID, version)))
         == Url(base.scheme, base.host, base.path + "organisation/accounts/" + accountID, Some(DeleteQuery(version)))
  {
    DeletePathReference(accountID, version);
    ResolveUnderDirectory(base, DeletePath(accountID, version));
  }

  /** A server reading Delete's query gets back the version, as decimal text and as the integer sent. */
  lemma DeleteQueryParameter(version: int)
    ensures QueryValue(DeleteQuery(version), VersionKey) == Some(FormatInt(version))
    ensures ParseInt(FormatInt(version)) == Some(version)
  {
    FormatIntPlain(version);
    FormatIntRoundTrip(version);
    QueryOnly(VersionKey, FormatInt(version));
  }

  /** List(0, 0) asks for page 0 of size 0; no bounds are checked. */
  lemma ListZeroExample()
    ensures ListQuery(0, 0) == "page[number]=0&page[size]=0"
    ensures ListPath(0, 0) == AccountsPath + "?" + "page[number]=0&page[size]=0"
  {
    assert FormatInt(0) == "0";
    assert QueryField(PageNumberKey, "0") == "page[number]=0";
    assert QueryField(PageSizeKey, "0") == "page[size]=0";
  }

  // ---------------------------------------------------------------------------
  // Operations
  // ---------------------------------------------------------------------------

  /** The account operations of a client. */
  class AccountsService {
    const client: Client

    constructor (client: Client)
      ensures this.client == client
    {
      this.client := client;
    }

    /**
     * Create: POST the account to the collection and decode the account the
     * server returns. Nothing is sent when the request cannot be built.
     */
    method Create(ctx: Option<Context>, account: Account, codec: AccountCodec,
                  resolve: (Url, string) -> Result<Url, Error>, outcome: Transport)
      returns (acc: Option<Account>, resp: Option<Response>, err: Option<Error>)
      requires ResolvesAsModelled(resolve, client.baseURL, AccountsPath)
      modifies client.httpClient
      ensures var u, b := resolve(client.baseURL, AccountsPath), codec.encodeAccount(account);
              (u.Failure? || b.Failure?) ==>
                && acc.None? && resp.None? && err == Some(if u.Failure? then u.error else b.error)
                && client.httpClient.sent == old(client.httpClient.sent)
      ensures var u, b := resolve(client.baseURL, AccountsPath), codec.encodeAccount(account);
              (u.Success? && b.Success?) ==>
                Exchanged(client.httpClient, Sent(MethodPost, u.value, Some(b.value), JsonHeaders(true)),
                          ctx, outcome, Some(codec.decodeAccount), codec.decodeErrorMessage, resp, err, acc)
      ensures var u, b := resolve(client.baseURL, AccountsPath), codec.encodeAccount(account);
              && u.Success? && b.Success? && RoundTrips(codec)
              && ctx.Some? && !ctx.value.doneBeforeSend
              && outcome.Delivered? && outcome.content == b.value && outcome.readError.None? && Is2xx(outcome.statusCode) ==>
                acc == Some(account) && err.None?
    {
      var request, e := client.NewRequest(MethodPost, AccountsPath, Some(account), resolve, codec.encodeAccount);
      if e.Some? {
        return None, None, e;
      }
      var target := new Target<Account>();
      resp, err := client.Do(ctx, request, target, outcome, codec.decodeAccount, codec.decodeErrorMessage);
      if err.Some? {
        return None, resp, err;
      }
      acc := target.decoded;
    }

    /** Fetch: GET one account by id and decode it. */
    method Fetch(ctx: Option<Context>, accountID: string, codec: AccountCodec,
                 resolve: (Url, string) -> Result<Url, Error>, outcome: Transport)
      returns (acc: Option<Account>, resp: Option<Response>, err: Option<Error>)
      requires ResolvesAsModelled(resolve, client.baseURL, AccountPath(accountID))
      modifies client.httpClient
      ensures var u := resolve(client.baseURL, AccountPath(accountID));
              u.Failure? ==>
                && acc.None? && resp.None? && err == Some(u.error)
                && client.httpClient.sent == old(client.httpClient.sent)
      ensures var u := resolve(client.baseURL, AccountPath(accountID));
              u.Success? ==>
                Exchanged(client.httpClient, Sent(MethodGet, u.value, None, JsonHeaders(false)),
                          ctx, outcome, Some(codec.decodeAccount), codec.decodeErrorMessage, resp, err, acc)
    {
      var path := AccountPath(accountID);
      var request, e := client.NewRequest<Account>(MethodGet, path, None, resolve, codec.encodeAccount);
      if e.Some? {
        return None, None, e;
      }
      var target := new Target<Account>();
      resp, err := client.Do(ctx, request, target, outcome, codec.decodeAccount, codec.decodeErrorMessage);
      if err.Some? {
        return None, resp, err;
      }
      acc := target.decoded;
    }

    /** List: GET one page of accounts and decode the list. */
    method List(ctx: Option<Context>, pageNumber: int, pageSize: int, codec: AccountCodec,
                resolve: (Url, string) -> Result<Url, Error>, outcome: Transport)
      returns (list: Option<AccountList>, resp: Option<Response>, err: Option<Error>)
      requires ResolvesAsModelled(resolve, client.baseURL, ListPath(pageNumber, pageSize))
      modifies client.httpClient
      ensures var u := resolve(client.baseURL, ListPath(pageNumber, pageSize));
              u.Failure? ==>
                && list.None? && resp.None? && err == Some(u.error)
                && client.httpClient.sent == old(client.httpClient.sent)
      ensures var u := resolve(client.baseURL, ListPath(pageNumber, pageSize));
              u.Success? ==>
                Exchanged(client.httpClient, Sent(MethodGet, u.value, None, JsonHeaders(false)),
                          ctx, outcome, Some(codec.decodeAccountList), codec.decodeErrorMessage, resp, err, list)
    {
      var path := ListPath(pageNumber, pageSize);
      var request, e := client.NewRequest<Account>(MethodGet, path, None, resolve, codec.encodeAccount);
      if e.Some? {
        return None, None, e;
      }
      var target := new Target<AccountList>();
      resp, err := client.Do(ctx, request, target, outcome, codec.decodeAccountList, codec.decodeErrorMessage);
      if err.Some? {
        return None, resp, err;
      }
      list := target.decoded;
    }

    /** Delete: DELETE one version of an account; nothing is decoded from the response. */
    method Delete(ctx: Option<Context>, accountID: string, version: int, codec: AccountCodec,
                  resolve: (Url, string) -> Result<Url, Error>, outcome: Transport)
      returns (resp: Option<Response>, err: Option<Error>)
      requires ResolvesAsModelled(resolve, client.baseURL, DeletePath(accountID, version))
      modifies client.httpClient
      ensures var u := resolve(client.baseURL, DeletePath(accountID, version));
              u.Failure? ==>
                resp.None? && err == Some(u.error) && client.httpClient.sent == old(client.httpClient.sent)
      ensures var u := resolve(client.baseURL, DeletePath(accountID, version));
              u.Success? ==>
                Exchanged<Account>(client.httpClient, Sent(MethodDelete, u.value, None, JsonHeaders(false)),
                                   ctx, outcome, None, codec.decodeErrorMessage, resp, err, None)
    {
      var path := DeletePath(accountID, version);
      var request, e := client.NewRequest<Account>(MethodDelete, path, None, resolve, codec.encodeAccount);
      if e.Some? {
        return None, e;
      }
      resp, err := client.Do<Account>(ctx, request, null, outcome, codec.decodeAccount, codec.decodeErrorMessage);
    }
  }
}
