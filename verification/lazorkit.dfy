/** The wallet SDK configuration and the browser session store of
    lib/lazorkit.ts. */
module Lazorkit {
  import opened Optional
  import opened JsString
  import Constants

  // ---------------------------------------------------------------------------
  // SDK configuration
  // ---------------------------------------------------------------------------

  /** The three public environment variables the configuration reads; each is
      a string or undefined. */
  datatype Env = Env(
    portalUrl: Option<string>,          // NEXT_PUBLIC_PORTAL_URL
    paymasterUrl: Option<string>,       // NEXT_PUBLIC_PAYMASTER_URL
    paymasterApiKey: Option<string>     // NEXT_PUBLIC_PAYMASTER_API_KEY
  )

  datatype PaymasterConfig = PaymasterConfig(paymasterUrl: string, apiKey: Option<string>)

  datatype Config = Config(rpcUrl: string, portalUrl: string, paymasterConfig: Option<PaymasterConfig>)

  /** The public portal used when no portal URL is configured. */
  const DefaultPortalUrl: string := "https://portal.lazor.sh"

  /** Builds the SDK configuration from the environment. `rpcUrl` is the
      devnet endpoint the chain library computes, taken as given. */
  function BuildConfig(env: Env, rpcUrl: string): (c: Config)
    ensures c.rpcUrl == rpcUrl
    ensures c.portalUrl != ""
    ensures Truthy(env.portalUrl) ==> c.portalUrl == env.portalUrl.value
    ensures !Truthy(env.portalUrl) ==> c.portalUrl == DefaultPortalUrl
    ensures c.paymasterConfig.Some? <==> Truthy(env.paymasterUrl)
    ensures c.paymasterConfig.Some? ==>
      && c.paymasterConfig.value.paymasterUrl == env.paymasterUrl.value
      && c.paymasterConfig.value.paymasterUrl != ""
      && c.paymasterConfig.value.apiKey == env.paymasterApiKey
  {
    Config(
      rpcUrl,
      Or(env.portalUrl, DefaultPortalUrl),
      if Truthy(env.paymasterUrl)
      then Some(PaymasterConfig(env.paymasterUrl.value, env.paymasterApiKey))
      else None)
  }

  /** An empty portal or paymaster URL is treated exactly like an unset one;
      the API key, passed through untouched, is not normalised. */
  lemma EmptyEnvIsUnset(env: Env, rpcUrl: string)
    ensures BuildConfig(env.(portalUrl := Some("")), rpcUrl) == BuildConfig(env.(portalUrl := None), rpcUrl)
    ensures BuildConfig(env.(paymasterUrl := Some("")), rpcUrl) == BuildConfig(env.(paymasterUrl := None), rpcUrl)
  {
  }

  // ---------------------------------------------------------------------------
  // Session store
  // ---------------------------------------------------------------------------

  /** The one key under which the wallet address is stored. */
  const SessionKey: string := "lazorkit_wallet_pubkey"

  /** Browser-local storage as seen by the store: whether a browser context
      (`window`) exists, and the key/value pairs held in local storage. */
  datatype Storage = Storage(hasWindow: bool, items: map<string, string>)

  /** Every key other than the session key holds the same thing in both maps. */
  ghost predicate SameOutsideSession(m: map<string, string>, m': map<string, string>) {
    forall k :: k != SessionKey ==> (k in m <==> k in m') && (k in m ==> m[k] == m'[k])
  }

  /** `getWalletSession`: the stored address, or None when nothing is stored
      or there is no browser context. */
  function Load(st: Storage): (r: Option<string>)
    ensures r.Some? <==> st.hasWindow && SessionKey in st.items
    ensures r.Some? ==> r.value == st.items[SessionKey]
  {
    if st.hasWindow && SessionKey in st.items then Some(st.items[SessionKey]) else None
  }

  /** `saveWalletSession`: stores `publicKey`, overwriting any earlier value;
      without a browser context nothing happens. */
  function Save(st: Storage, publicKey: string): (r: Storage)
    ensures r.hasWindow == st.hasWindow
    ensures st.hasWindow ==> Load(r) == Some(publicKey)
    ensures !st.hasWindow ==> r == st
    ensures SameOutsideSession(st.items, r.items)
  {
    if st.hasWindow then st.(items := st.items[SessionKey := publicKey]) else st
  }

  /** `clearWalletSession`: removes the stored address, whether or not one is
      there; without a browser context nothing happens. */
  function Clear(st: Storage): (r: Storage)
    ensures r.hasWindow == st.hasWindow
    ensures Load(r) == None
    ensures SessionKey !in r.items || !st.hasWindow
    ensures !st.hasWindow ==> r == st
    ensures SameOutsideSession(st.items, r.items)
  {
    if st.hasWindow then st.(items := st.items - {SessionKey}) else st
  }

  /** Single slot: a second save replaces the first entirely. */
  lemma SaveOverwrites(st: Storage, a: string, b: string)
    ensures Save(Save(st, a), b) == Save(st, b)
  {
  }

  /** Clearing twice is clearing once, also on an empty store. */
  lemma ClearIdempotent(st: Storage)
    ensures Clear(Clear(st)) == Clear(st)
  {
  }

  /** Without a browser context the store reads as empty whatever local
      storage holds, and saving or clearing changes nothing. */
  lemma NoWindowInert(st: Storage, a: string)
    requires !st.hasWindow
    ensures Load(st) == None
    ensures Save(st, a) == st && Clear(st) == st
  {
  }

  /** The key the constants file declares is not the key the store uses, so
      the store never touches it. */
  lemma DeclaredKeyUnused(st: Storage, a: string)
    ensures Constants.WalletStorageKey != SessionKey
    ensures Constants.WalletStorageKey in Save(st, a).items <==> Constants.WalletStorageKey in st.items
    ensures Constants.WalletStorageKey in Clear(st).items <==> Constants.WalletStorageKey in st.items
  {
  }

  // ---------------------------------------------------------------------------
  // Sequences of store calls
  // ---------------------------------------------------------------------------

  datatype StoreCall = SaveCall(publicKey: string) | ClearCall | LoadCall

  function Apply(st: Storage, call: StoreCall): (st': Storage) {
    match call
    case SaveCall(a) => Save(st, a)
    case ClearCall => Clear(st)
    case LoadCall => st
  }

  /** The storage after performing `calls` in order. */
  function Run(st: Storage, calls: seq<StoreCall>): (st': Storage)
    decreases |calls|
  {
    if |calls| == 0 then st else Run(Apply(st, calls[0]), calls[1..])
  }

  /** Reference answer, read from the end of the history: the value the most
      recent save or clear left in the slot (None inside for a clear), or
      None when no call wrote the slot. */
  function LastWrite(calls: seq<StoreCall>): (w: Option<Option<string>>)
    decreases |calls|
  {
    if |calls| == 0 then None
    else match calls[|calls| - 1]
      case SaveCall(a) => Some(Some(a))
      case ClearCall => Some(None)
      case LoadCall => LastWrite(calls[..|calls| - 1])
  }

  lemma {:induction false} RunAppend(st: Storage, calls: seq<StoreCall>, call: StoreCall)
    ensures Run(st, calls + [call]) == Apply(Run(st, calls), call)
    decreases |calls|
  {
    if |calls| == 0 {
      assert calls + [call] == [call];
    } else {
      assert (calls + [call])[1..] == calls[1..] + [call];
      RunAppend(Apply(st, calls[0]), calls[1..], call);
    }
  }

  /** In a browser context, loading after any sequence of calls returns what
      the latest save or clear left, or the original content if none wrote. */
  lemma {:induction false} LoadAfterRun(st: Storage, calls: seq<StoreCall>)
    requires st.hasWindow
    ensures Run(st, calls).hasWindow
    ensures Load(Run(st, calls)) == ValueOr(LastWrite(calls), Load(st))
    decreases |calls|
  {
    if |calls| > 0 {
      var init, last := calls[..|calls| - 1], calls[|calls| - 1];
      assert calls == init + [last];
      RunAppend(st, init, last);
      LoadAfterRun(st, init);
    }
  }

  /** Without a browser context no sequence of calls changes anything. */
  lemma {:induction false} RunWithoutWindow(st: Storage, calls: seq<StoreCall>)
    requires !st.hasWindow
    ensures Run(st, calls) == st
    decreases |calls|
  {
    if |calls| > 0 {
      RunWithoutWindow(Apply(st, calls[0]), calls[1..]);
    }
  }

  /** No sequence of calls touches any key other than the session key. */
  lemma {:induction false} RunKeepsOtherKeys(st: Storage, calls: seq<StoreCall>)
    ensures SameOutsideSession(st.items, Run(st, calls).items)
    decreases |calls|
  {
    if |calls| > 0 {
      var st' := Apply(st, calls[0]);
      RunKeepsOtherKeys(st', calls[1..]);
    }
  }
}
