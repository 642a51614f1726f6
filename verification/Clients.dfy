/** The composite client store: clients read from a file and then from an API, and their credentials. */
module Clients {
  import opened Basics

  datatype Client = Client(
    id: string,
    redirectURIs: seq<string>,
    grantTypes: seq<string>,
    scopes: seq<string>,
    secrets: seq<string>,
    isServiceClient: bool)

  /** What reading and decoding one source produced; `None` when either failed. */
  datatype Source =
    | FileSource(content: Option<seq<Client>>)
    | APISource(content: Option<seq<Client>>)

  datatype Credentials = Credentials(
    clientID: string,
    clientSecret: Option<string>,
    scope: Option<seq<string>>,
    grantType: string)

  type Hash = string -> string

  const GRANT_TYPE_BASIC := "basic"
  const GRANT_TYPE_CLIENT_CREDENTIALS := "client_credentials"
  const GRANT_TYPE_IAM := "iam"
  const GRANT_TYPE_PFAS := "pfas"
  const INVALID_CLIENT := "invalid_client"
  const INVALID_REQUEST := "invalid_request"

  /** A redirect URI is allowed when some registered URI contains it. */
  predicate AllowedRedirect(registered: seq<string>, redirectURI: string) {
    exists i | 0 <= i < |registered| :: Contains(registered[i], redirectURI)
  }

  /** A string that contains one of its own length is that string. */
  lemma ContainsAtLength(s: string, sub: string)
    requires Contains(s, sub)
    ensures |sub| <= |s|
    ensures |sub| == |s| ==> sub == s
  {
    var i :| 0 <= i <= |s| && HasPrefix(s[i..], sub);
  }

  /**
   * An accepted redirect URI is a registered one exactly when it is as long as a registered URI that contains it; so for
   * a client with one registered URI exactly when it is not shorter.
   */
  lemma AcceptedIsRegisteredWhen(registered: seq<string>, redirectURI: string)
    requires AllowedRedirect(registered, redirectURI)
    ensures redirectURI in registered <==> exists r :: r in registered && Contains(r, redirectURI) && |redirectURI| >= |r|
    ensures |registered| == 1 ==> (redirectURI == registered[0] <==> |redirectURI| >= |registered[0]|)
  {
    forall r | r in registered && Contains(r, redirectURI) ensures |redirectURI| >= |r| ==> redirectURI == r {
      ContainsAtLength(r, redirectURI);
    }
    if redirectURI in registered {
      assert HasPrefix(redirectURI[0..], redirectURI);
      assert Contains(redirectURI, redirectURI);
    }
  }

  /** What goes wrong otherwise: a piece of a registered URI that names another host is accepted, and so is no URI at all. */
  lemma PiecesOfRegisteredUrisAreAccepted(registered: seq<string>)
    ensures AllowedRedirect(["https://app.example.com/cb"], "https://app.example.co")
    ensures AllowedRedirect(registered, "") <==> |registered| > 0
  {
    assert HasPrefix("https://app.example.com/cb"[0..], "https://app.example.co");
    assert Contains(["https://app.example.com/cb"][0], "https://app.example.co");
    if |registered| > 0 {
      assert HasPrefix(registered[0][0..], "");
      assert Contains(registered[0], "");
    }
  }

  // ---------------------------------------------------------------- loading

  /** A file client is a service client when it has no redirect URI; its secrets are hashed. */
  function FromFile(hash: Hash, c: Client): Client {
    c.(isServiceClient := |c.redirectURIs| == 0, secrets := Hashed(hash, c.secrets))
  }

  function Hashed(hash: Hash, secrets: seq<string>): seq<string> {
    seq(|secrets|, i requires 0 <= i < |secrets| => hash(secrets[i]))
  }

  /** The clients a source hands over. API secrets arrive hashed. */
  function Loaded(hash: Hash, source: Source): Option<seq<Client>> {
    match source
    case FileSource(Some(cs)) => Some(seq(|cs|, i requires 0 <= i < |cs| => FromFile(hash, cs[i])))
    case APISource(Some(cs)) => Some(seq(|cs|, i requires 0 <= i < |cs| => cs[i].(isServiceClient := true)))
    case _ => None
  }

  predicate AllNamed(cs: seq<Client>) {
    forall i | 0 <= i < |cs| :: cs[i].id != ""
  }

  /** All clients of all sources in order, or `None` as soon as a source fails or a client has no ID. */
  function LoadAll(hash: Hash, sources: seq<Source>): Option<seq<Client>> {
    if sources == [] then Some([])
    else
      var before := LoadAll(hash, sources[..|sources| - 1]);
      var loaded := Loaded(hash, sources[|sources| - 1]);
      if before.Some? && loaded.Some? && AllNamed(loaded.value) then Some(before.value + loaded.value) else None
  }

  /** The map that keeps the earlier of two clients with one ID. */
  function Index(cs: seq<Client>): map<string, Client> {
    if cs == [] then map[]
    else
      var m, last := Index(cs[..|cs| - 1]), cs[|cs| - 1];
      if last.id in m then m else m[last.id := last]
  }

  /** Linear search, the reference for `Index`. */
  function FirstWithID(cs: seq<Client>, id: string): Option<Client> {
    if cs == [] then None
    else if cs[0].id == id then Some(cs[0])
    else FirstWithID(cs[1..], id)
  }

  function Get(clients: map<string, Client>, id: string): Option<Client> {
    if id in clients then Some(clients[id]) else None
  }

  lemma {:induction false} FirstOfConcatenation(a: seq<Client>, b: seq<Client>, id: string)
    ensures FirstWithID(a + b, id) == if FirstWithID(a, id).Some? then FirstWithID(a, id) else FirstWithID(b, id)
  {
    if a == [] {
      assert a + b == b;
    } else {
      assert (a + b)[1..] == a[1..] + b;
      FirstOfConcatenation(a[1..], b, id);
    }
  }

  /** Looking an ID up in the index is the linear search for its first client. */
  lemma {:induction false} IndexRefinesSearch(cs: seq<Client>, id: string)
    ensures Get(Index(cs), id) == FirstWithID(cs, id)
  {
    if cs != [] {
      var front, last := cs[..|cs| - 1], cs[|cs| - 1];
      IndexRefinesSearch(front, id);
      IndexRefinesSearch(front, last.id);
      FirstOfConcatenation(front, [last], id);
      assert cs == front + [last];
      assert FirstWithID([last][1..], id) == None;
    }
  }

  lemma {:induction false} FirstIsMember(cs: seq<Client>, id: string)
    ensures FirstWithID(cs, id).Some? ==> FirstWithID(cs, id).value in cs && FirstWithID(cs, id).value.id == id
    ensures FirstWithID(cs, id).None? ==> forall c | c in cs :: c.id != id
  {
    if cs != [] {
      FirstIsMember(cs[1..], id);
      assert cs == [cs[0]] + cs[1..];
    }
  }

  lemma {:induction false} LoadAllFailsForGood(hash: Hash, sources: seq<Source>, n: nat)
    requires n <= |sources| && LoadAll(hash, sources[..n]).None?
    ensures LoadAll(hash, sources).None?
  {
    if n < |sources| {
      var front := sources[..|sources| - 1];
      assert front[..n] == sources[..n];
      LoadAllFailsForGood(hash, front, n);
    } else {
      assert sources[..n] == sources;
    }
  }

  /** The sources of a store: the file, and the API if one is configured. */
  function Configured(file: Option<seq<Client>>, api: Option<Option<seq<Client>>>): seq<Source> {
    [FileSource(file)] + if api.Some? then [APISource(api.value)] else []
  }

  /** The clients of a successful load: those of the file as flagged and hashed, then those of the API, if any. */
  lemma LoadedInOrder(hash: Hash, file: Option<seq<Client>>, api: Option<Option<seq<Client>>>) returns (fromAPI: seq<Client>)
    requires LoadAll(hash, Configured(file, api)).Some?
    ensures file.Some? && LoadAll(hash, Configured(file, api)).value == Loaded(hash, FileSource(file)).value + fromAPI
    ensures forall i | 0 <= i < |fromAPI| :: fromAPI[i].isServiceClient
  {
    var sources := Configured(file, api);
    assert sources[..1] == [FileSource(file)] && sources[..1][..0] == [];
    assert LoadAll(hash, sources[..1][..0]) == Some([]);
    var fromFile := Loaded(hash, FileSource(file));
    if api.None? {
      assert sources == sources[..1];
      fromAPI := [];
      assert [] + fromFile.value == fromFile.value + [];
    } else {
      fromAPI := Loaded(hash, APISource(api.value)).value;
      assert LoadAll(hash, sources[..1]) == Some([] + fromFile.value);
      assert [] + fromFile.value == fromFile.value;
    }
  }

  /**
   * After a successful load of the file, alone or followed by the API, a stored client that is not a service client
   * is exactly the first file client with its ID, when that one has redirect URIs.
   */
  lemma InteractiveClientsComeFromTheFile(hash: Hash, file: Option<seq<Client>>, api: Option<Option<seq<Client>>>, id: string)
    requires LoadAll(hash, Configured(file, api)).Some?
    ensures
      var all := LoadAll(hash, Configured(file, api)).value;
      && file.Some?
      && ((Get(Index(all), id).Some? && !Get(Index(all), id).value.isServiceClient)
          <==> (FirstWithID(file.value, id).Some? && |FirstWithID(file.value, id).value.redirectURIs| > 0))
  {
    var fromAPI := LoadedInOrder(hash, file, api);
    var all := LoadAll(hash, Configured(file, api)).value;
    var fromFile := Loaded(hash, FileSource(file)).value;
    IndexRefinesSearch(all, id);
    FirstOfConcatenation(fromFile, fromAPI, id);
    FirstFromFile(hash, file.value, fromFile, id);
    FirstIsMember(fromAPI, id);
  }

  lemma {:induction false} FirstFromFile(hash: Hash, file: seq<Client>, fromFile: seq<Client>, id: string)
    requires |fromFile| == |file| && forall i | 0 <= i < |file| :: fromFile[i] == FromFile(hash, file[i])
    ensures FirstWithID(file, id).None? ==> FirstWithID(fromFile, id).None?
    ensures FirstWithID(file, id).Some? ==> FirstWithID(fromFile, id) == Some(FromFile(hash, FirstWithID(file, id).value))
  {
    if file != [] {
      FirstFromFile(hash, file[1..], fromFile[1..], id);
    }
  }

  /** Every source could be read, and every client in it has an ID. */
  predicate Loadable(file: Option<seq<Client>>, api: Option<Option<seq<Client>>>) {
    && file.Some? && (forall i | 0 <= i < |file.value| :: file.value[i].id != "")
    && (api.Some? ==> api.value.Some? && forall i | 0 <= i < |api.value.value| :: api.value.value[i].id != "")
  }

  /** `c` is the file client `raw`, a service client if it has no redirect URIs, with the hashes of its secrets. */
  predicate Hashes(hash: Hash, raw: Client, c: Client) {
    && c == raw.(isServiceClient := |raw.redirectURIs| == 0, secrets := c.secrets)
    && |c.secrets| == |raw.secrets| && forall i | 0 <= i < |raw.secrets| :: c.secrets[i] == hash(raw.secrets[i])
  }

  /**
   * The client under an ID is the first one of the file; or, if the file has none, the first one of the API, which is a
   * service client and whose secrets are taken as they come; or nobody.
   */
  predicate StoredFrom(hash: Hash, file: Option<seq<Client>>, api: Option<Option<seq<Client>>>, id: string, stored: Option<Client>)
    requires Loadable(file, api)
  {
    var known := FirstWithID(file.value, id);
    var offered := if api.Some? then FirstWithID(api.value.value, id) else None;
    if known.Some? then stored.Some? && Hashes(hash, known.value, stored.value)
    else if offered.Some? then stored == Some(offered.value.(isServiceClient := true))
    else stored.None?
  }

  /** A load succeeds exactly on readable sources with named clients, and then stores each ID's first client. */
  lemma LoadsStoreTheFirst(hash: Hash, file: Option<seq<Client>>, api: Option<Option<seq<Client>>>, id: string)
    ensures
      var all := LoadAll(hash, Configured(file, api));
      && (all.Some? <==> Loadable(file, api))
      && (all.Some? ==> StoredFrom(hash, file, api, id, Get(Index(all.value), id)))
  {
    hide FirstWithID, Index, Get, Hashes, LoadAll, Configured;
    LoadsWhen(hash, file, api);
    if Loadable(file, api) {
      var fromFile := Loaded(hash, FileSource(file)).value;
      var fromAPI := if api.Some? then Loaded(hash, APISource(api.value)).value else [];
      IndexRefinesSearch(fromFile + fromAPI, id);
      FirstOfConcatenation(fromFile, fromAPI, id);
      FirstFromFile(hash, file.value, fromFile, id);
      if FirstWithID(file.value, id).Some? {
        HashedIs(hash, FirstWithID(file.value, id).value);
      }
      if api.Some? {
        FirstFromAPI(api.value.value, fromAPI, id);
      } else {
        NobodyIn(id);
      }
    }
  }

  lemma LoadsWhen(hash: Hash, file: Option<seq<Client>>, api: Option<Option<seq<Client>>>)
    ensures LoadAll(hash, Configured(file, api)).Some? <==> Loadable(file, api)
    ensures Loadable(file, api) ==>
      LoadAll(hash, Configured(file, api)) ==
        Some(Loaded(hash, FileSource(file)).value + if api.Some? then Loaded(hash, APISource(api.value)).value else [])
  {
    hide LoadAll, Loaded, AllNamed;
    SourceLoads(hash, FileSource(file));
    LoadOne(hash, FileSource(file));
    if api.Some? {
      SourceLoads(hash, APISource(api.value));
      LoadTwo(hash, FileSource(file), APISource(api.value));
      assert Configured(file, api) == [FileSource(file), APISource(api.value)];
    } else {
      assert Configured(file, api) == [FileSource(file)];
      if file.Some? {
        assert Loaded(hash, FileSource(file)).value + [] == Loaded(hash, FileSource(file)).value;
      }
    }
  }

  lemma SourceLoads(hash: Hash, source: Source)
    ensures Loaded(hash, source).Some? <==> source.content.Some?
    ensures source.content.Some? ==>
      (AllNamed(Loaded(hash, source).value) <==> forall i | 0 <= i < |source.content.value| :: source.content.value[i].id != "")
  {
    if source.content.Some? {
      var cs, raw := Loaded(hash, source).value, source.content.value;
      assert forall i | 0 <= i < |raw| :: cs[i].id == raw[i].id;
    }
  }

  lemma LoadOne(hash: Hash, source: Source)
    ensures
      var loaded := Loaded(hash, source);
      LoadAll(hash, [source]) == if loaded.Some? && AllNamed(loaded.value) then loaded else None
  {
    hide Loaded, AllNamed;
    assert [source][..0] == [] && LoadAll(hash, []) == Some([]);
    if Loaded(hash, source).Some? {
      assert [] + Loaded(hash, source).value == Loaded(hash, source).value;
    }
  }

  lemma LoadTwo(hash: Hash, first: Source, second: Source)
    ensures
      var before, loaded := LoadAll(hash, [first]), Loaded(hash, second);
      LoadAll(hash, [first, second]) ==
        if before.Some? && loaded.Some? && AllNamed(loaded.value) then Some(before.value + loaded.value) else None
  {
    hide Loaded, AllNamed;
    assert [first, second][..1] == [first];
  }

  lemma HashedIs(hash: Hash, raw: Client)
    ensures Hashes(hash, raw, FromFile(hash, raw))
  {
  }

  lemma NobodyIn(id: string)
    ensures FirstWithID([], id).None?
  {
  }

  lemma {:induction false} FirstFromAPI(api: seq<Client>, fromAPI: seq<Client>, id: string)
    requires |fromAPI| == |api| && forall i | 0 <= i < |api| :: fromAPI[i] == api[i].(isServiceClient := true)
    ensures FirstWithID(api, id).None? ==> FirstWithID(fromAPI, id).None?
    ensures FirstWithID(api, id).Some? ==> FirstWithID(fromAPI, id) == Some(FirstWithID(api, id).value.(isServiceClient := true))
  {
    if api != [] {
      FirstFromAPI(api[1..], fromAPI[1..], id);
    }
  }

  // ---------------------------------------------------------------- credentials

  predicate SkipsClientSecret(grantType: string) {
    grantType == GRANT_TYPE_PFAS || grantType == GRANT_TYPE_IAM
  }

  /** The grant is listed; "basic" stands in for "client_credentials". */
  predicate GrantListed(c: Client, grantType: string) {
    grantType in c.grantTypes || (grantType == GRANT_TYPE_CLIENT_CREDENTIALS && GRANT_TYPE_BASIC in c.grantTypes)
  }

  predicate ScopesCovered(scope: Option<seq<string>>, available: seq<string>) {
    scope.Some? ==> forall i | 0 <= i < |scope.value| :: scope.value[i] in available
  }

  predicate SecretMatches(c: Client, cred: Credentials) {
    SkipsClientSecret(cred.grantType) || (cred.clientSecret.Some? && cred.clientSecret.value in c.secrets)
  }

  predicate Admitted(clients: map<string, Client>, cred: Credentials) {
    && cred.clientID in clients
    && var c := clients[cred.clientID];
       && c.isServiceClient
       && GrantListed(c, cred.grantType)
       && ScopesCovered(cred.scope, c.scopes)
       && SecretMatches(c, cred)
  }

  /**
   * For a client read from the file, presenting the hash of `secret` is admitted exactly when the hash of a
   * configured secret equals it.
   */
  lemma FileSecretsMatchByHash(hash: Hash, raw: Client, secret: string)
    ensures hash(secret) in FromFile(hash, raw).secrets <==> exists s :: s in raw.secrets && hash(s) == hash(secret)
  {
    var hashed := FromFile(hash, raw).secrets;
    if hash(secret) in hashed {
      var i :| 0 <= i < |hashed| && hashed[i] == hash(secret);
      assert raw.secrets[i] in raw.secrets;
    }
    if s :| s in raw.secrets && hash(s) == hash(secret) {
      var i :| 0 <= i < |raw.secrets| && raw.secrets[i] == s;
      assert hashed[i] == hash(secret);
    }
  }

  // ---------------------------------------------------------------- the store

  /** Flags and hashes the decoded file clients in place. */
  method PrepareFileClients(hash: Hash, clients: array<Client>)
    modifies clients
    ensures Some(clients[..]) == Loaded(hash, FileSource(Some(old(clients[..]))))
  {
    var i := 0;
    while i < clients.Length
      invariant 0 <= i <= clients.Length
      invariant forall k | 0 <= k < i :: clients[k] == FromFile(hash, old(clients[k]))
      invariant forall k | i <= k < clients.Length :: clients[k] == old(clients[k])
    {
      clients[i] := clients[i].(isServiceClient := |clients[i].redirectURIs| == 0);
      var j := 0;
      while j < |clients[i].secrets|
        invariant 0 <= j <= |clients[i].secrets|
        invariant clients[i] == old(clients[i]).(isServiceClient := |old(clients[i]).redirectURIs| == 0, secrets := clients[i].secrets)
        invariant |clients[i].secrets| == |old(clients[i]).secrets|
        invariant forall k | 0 <= k < j :: clients[i].secrets[k] == hash(old(clients[i]).secrets[k])
        invariant forall k | j <= k < |clients[i].secrets| :: clients[i].secrets[k] == old(clients[i]).secrets[k]
        invariant forall k | 0 <= k < i :: clients[k] == FromFile(hash, old(clients[k]))
        invariant forall k | i < k < clients.Length :: clients[k] == old(clients[k])
        modifies clients
      {
        clients[i] := clients[i].(secrets := clients[i].secrets[j := hash(clients[i].secrets[j])]);
        j := j + 1;
      }
      assert clients[i].secrets == Hashed(hash, old(clients[i]).secrets);
      i := i + 1;
    }
    assert clients[..] == Loaded(hash, FileSource(Some(old(clients[..])))).value;
  }

  /** The loop over one source's clients: fails on a client without ID, skips a client whose ID is taken. */
  method AddClients(index: map<string, Client>, batch: seq<Client>, ghost before: seq<Client>)
    returns (ok: bool, newClients: map<string, Client>)
    requires index == Index(before)
    ensures ok == AllNamed(batch)
    ensures ok ==> newClients == Index(before + batch)
  {
    newClients := index;
    assert before + batch[..0] == before;
    for j := 0 to |batch|
      invariant AllNamed(batch[..j])
      invariant newClients == Index(before + batch[..j])
    {
      if batch[j].id == "" {
        return false, newClients;
      }
      assert (before + batch[..j + 1])[..|before| + j] == before + batch[..j];
      if batch[j].id !in newClients {
        newClients := newClients[batch[j].id := batch[j]];
      }
    }
    assert batch[..|batch|] == batch;
    return true, newClients;
  }

  class CompositeClientStore {
    const hash: Hash
    var clients: map<string, Client>

    constructor (hash: Hash)
      ensures this.hash == hash && clients == map[]
    {
      this.hash := hash;
      clients := map[];
    }

    /** Replaces the whole map, or leaves it alone when any source fails. */
    method LoadClients(sources: seq<Source>) returns (ok: bool)
      modifies this
      ensures ok == LoadAll(hash, sources).Some?
      ensures clients == if ok then Index(LoadAll(hash, sources).value) else old(clients)
    {
      var newClients: map<string, Client> := map[];
      ghost var all: seq<Client> := [];
      var i := 0;
      while i < |sources|
        invariant 0 <= i <= |sources|
        invariant LoadAll(hash, sources[..i]) == Some(all)
        invariant newClients == Index(all)
        invariant clients == old(clients)
      {
        assert sources[..i + 1][..i] == sources[..i];
        var loaded := Loaded(hash, sources[i]);
        if loaded.None? {
          LoadAllFailsForGood(hash, sources, i + 1);
          return false;
        }
        var added;
        added, newClients := AddClients(newClients, loaded.value, all);
        if !added {
          LoadAllFailsForGood(hash, sources, i + 1);
          return false;
        }
        all := all + loaded.value;
        i := i + 1;
      }
      assert sources[..i] == sources;
      clients := newClients;
      return true;
    }

    method RefetchClients(sources: seq<Source>) returns (ok: bool)
      modifies this
      ensures ok == LoadAll(hash, sources).Some?
      ensures clients == if ok then Index(LoadAll(hash, sources).value) else old(clients)
    {
      ok := LoadClients(sources);
    }

    method GetClient(clientID: string) returns (r: Result<Client, string>)
      ensures r == if clientID in clients then Ok(clients[clientID]) else Err(INVALID_CLIENT)
    {
      if clientID !in clients {
        return Err(INVALID_CLIENT);
      }
      r := Ok(clients[clientID]);
    }

    /** The error code, or `None` when the credentials are admitted. The stored clients stay as they are. */
    method ValidateCredentials(cred: Credentials) returns (refusal: Option<string>)
      ensures refusal.None? <==> Admitted(clients, cred)
      ensures refusal == Some(INVALID_REQUEST) <==>
        && cred.clientID in clients && clients[cred.clientID].isServiceClient
        && !(GrantListed(clients[cred.clientID], cred.grantType) && ScopesCovered(cred.scope, clients[cred.clientID].scopes))
      ensures refusal.Some? ==> refusal.value in {INVALID_CLIENT, INVALID_REQUEST}
    {
      var found := GetClient(cred.clientID);
      if found.Err? {
        return Some(found.error);
      }
      var client := found.value;
      if !client.isServiceClient {
        return Some(INVALID_CLIENT);
      }
      if GRANT_TYPE_BASIC in client.grantTypes && GRANT_TYPE_CLIENT_CREDENTIALS !in client.grantTypes {
        client := client.(grantTypes := client.grantTypes + [GRANT_TYPE_CLIENT_CREDENTIALS]);
      }
      if cred.grantType !in client.grantTypes {
        return Some(INVALID_REQUEST);
      }
      if cred.scope.Some? {
        var i := 0;
        while i < |cred.scope.value|
          invariant 0 <= i <= |cred.scope.value|
          invariant forall k | 0 <= k < i :: cred.scope.value[k] in client.scopes
        {
          if cred.scope.value[i] !in client.scopes {
            return Some(INVALID_REQUEST);
          }
          i := i + 1;
        }
      }
      if SkipsClientSecret(cred.grantType) {
        return None;
      }
      if cred.clientSecret.None? {
        return Some(INVALID_CLIENT);
      }
      var i := 0;
      while i < |client.secrets|
        invariant 0 <= i <= |client.secrets|
        invariant forall k | 0 <= k < i :: client.secrets[k] != cred.clientSecret.value
      {
        if client.secrets[i] == cred.clientSecret.value {
          return None;
        }
        i := i + 1;
      }
      refusal := Some(INVALID_CLIENT);
    }
  }
}
