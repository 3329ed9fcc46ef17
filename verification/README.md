# Lazorkit starter: wallet session, configuration and transfer form

A Dafny model of the small pieces of logic in a Next.js demo client for a
passkey smart wallet on Solana devnet. Everything else in that client is a
call into the wallet SDK or the Solana RPC library, or markup.

Modules: `Constants`, `Solana`, `Lazorkit` and `SendUsdc` follow the source
files of the same names; `Optional` and `JsString` hold the optional-value
type and the JavaScript string semantics they share.

- `Optional` (optional.dfy): present-or-absent values, standing for
  JavaScript's `null` and `undefined`.
- `JsString` (js_string.dfy): JavaScript truthiness of a string-or-`undefined`,
  the `x || default` idiom, and `String.prototype.slice`. A negative index counts
  back from the end, indices are clamped to the string, and `-0` resolves like `0`.
- `Constants` (constants.dfy): the `devnet` network name and the block-explorer
  link for a transaction signature. `ParseExplorerUrl` is its inverse, so we can
  prove the link is a round trip, injective, and contains the signature verbatim.
- `Solana` (solana.dfy): `shortenAddress`, with the default of 4 characters. It
  is written directly on top of the JavaScript `slice` model.
- `Lazorkit` (lazorkit.dfy): two parts.
  - The SDK configuration built from environment variables. An empty string
    counts as unset, as JavaScript `||` and the ternary's truthiness test require.
  - The session store. `Save`, `Load` and `Clear` act on browser-local storage
    through the single key `lazorkit_wallet_pubkey`, and only when a browser
    context exists. Sequences of store calls are proved to agree with a reference
    definition, "the latest save or clear wins".
- `SendUsdc` (send_usdc.dfy): the transfer form's state and the Send button's
  enable rule. `handleSend` becomes a pure transition that takes the wallet
  (or its absence) and the answer of one abstract external step. That step
  stands for recipient parsing, instruction building and sign-and-send. We also
  model the form under any sequence of user actions and prove its invariant.

## Model

| member | source | states |
|---|---|---|
| JsString.Or | lib/lazorkit.ts:5 | `v \|\| fallback` yields `v` exactly when it is present and non-empty, the fallback otherwise |
| JsString.ResolveIndex | lib/solana.ts:35 | a `slice` index resolves into `[0, len]`; a non-negative one is clamped to `len`, a negative one counts back from the end and is clamped to 0 |
| JsString.Slice | lib/solana.ts:35 | a slice is never longer than the string it is cut from |
| JsString.SliceHead | lib/solana.ts:35 | `s.slice(0, k)` for `k >= 0` is the first `min(k, \|s\|)` characters |
| JsString.SliceTail | lib/solana.ts:35 | `s.slice(-k)` for `k > 0` is the last `min(k, \|s\|)` characters |
| JsString.SliceMinusZero | lib/solana.ts:35 | `s.slice(-0)` is the whole string |
| Constants.ExplorerUrl | lib/constants.ts:15-16 | the link is the fixed prefix, then the signature verbatim, then the cluster query; its length is the signature's plus a constant |
| Constants.ParseExplorerUrl | lib/constants.ts:15-16 | a parsed link is exactly as long as the signature plus the fixed parts |
| Constants.ExplorerUrlIsDevnetPage | lib/constants.ts:3-16 | with the constants written out, the link is `https://explorer.solana.com/tx/<sig>?cluster=devnet` |
| Constants.ParseBuildsInverse | lib/constants.ts:15-16 | parsing a built link returns the signature it was built from |
| Constants.BuildAfterParse | lib/constants.ts:15-16 | every string that parses is the link built from its parsed signature |
| Constants.ExplorerUrlInjective | lib/constants.ts:16 | two links are equal if and only if their signatures are |
| Constants.ExplorerUrlContainsSignature | lib/constants.ts:16 | the signature occurs in the link as a contiguous substring |
| Solana.ShortenAddress | lib/solana.ts:34-36 | for `chars >= 1`: the first `min(chars, \|a\|)` characters, `...`, then the last `min(chars, \|a\|)`; for `chars = 0`: `...` then the whole address; for negative `chars`: the address minus its last `-chars`, `...`, then the address minus its first `-chars` |
| Solana.DefaultIsFour | lib/solana.ts:34 | omitting `chars` is the same as passing 4 |
| Solana.ShortenedLength | lib/solana.ts:35 | an address of at least `chars >= 1` characters shortens to `2 * chars + 3` characters |
| Solana.ShortAddressRepeated | lib/solana.ts:35 | an address shorter than `chars` gives `a + "..." + a` |
| Solana.ShortenExample | lib/solana.ts:34-36 | `ABCDEFGHIJKL` with 4 gives `ABCD...IJKL` |
| Solana.ShortenDeterminedByEnds | lib/solana.ts:35 | for addresses of at least `chars >= 1` characters, two shortenings are equal if and only if the addresses share their first and last `chars` characters |
| Lazorkit.BuildConfig | lib/lazorkit.ts:3-12 | the portal URL is the environment value when non-empty, else `https://portal.lazor.sh`, so never empty; the paymaster config is present if and only if the paymaster URL is non-empty; when present it carries that URL and the API key unchanged, even an unset key |
| Lazorkit.EmptyEnvIsUnset | lib/lazorkit.ts:5-11 | an empty portal or paymaster URL gives the same configuration as an unset one |
| Lazorkit.Load | lib/lazorkit.ts:20-25 | the stored address is returned exactly when a browser context exists and the key is present; otherwise null |
| Lazorkit.Save | lib/lazorkit.ts:14-18 | in a browser context a following load returns the saved address; without one the storage is unchanged; no other key is touched |
| Lazorkit.Clear | lib/lazorkit.ts:27-31 | a following load returns null; without a browser context the storage is unchanged; no other key is touched |
| Lazorkit.SaveOverwrites | lib/lazorkit.ts:14-18 | saving `a` then `b` leaves the same storage as saving `b` alone |
| Lazorkit.ClearIdempotent | lib/lazorkit.ts:27-31 | clearing twice is the same as clearing once, also on empty storage |
| Lazorkit.NoWindowInert | lib/lazorkit.ts:14-31 | without a browser context load returns null whatever is stored, and save and clear change nothing |
| Lazorkit.DeclaredKeyUnused | lib/constants.ts:8 | the declared `lazorkit_wallet_session` key differs from the store's key, and save and clear never add or remove it |
| Lazorkit.LoadAfterRun | lib/lazorkit.ts:14-31 | in a browser context, after any sequence of save/load/clear calls, load returns what the latest save or clear left; with no such call it returns what was there before |
| Lazorkit.RunWithoutWindow | lib/lazorkit.ts:14-31 | without a browser context no sequence of calls changes the storage |
| Lazorkit.RunKeepsOtherKeys | lib/lazorkit.ts:14-31 | no sequence of calls changes any key other than the session key |
| SendUsdc.HandleSend | components/SendUsdc.tsx:21-57 | no wallet, empty recipient or empty amount: the error is the fill-in-all-fields message, there is no external call, and nothing else changes. Otherwise the wallet, recipient and amount go to the external step, with loading set and error and signature cleared. On success the signature is set and the fields emptied; on failure the error is the thrown message or `Transaction failed`, and the fields are kept. On the valid path, loading ends false, and signature and error are never both set |
| SendUsdc.EnabledClickSubmits | components/SendUsdc.tsx:96-98 | the button is enabled (`SendEnabled`) exactly when not loading and both fields are non-empty; with a wallet, a click on an enabled button always reaches the external step |
| SendUsdc.ButtonAfterSend | components/SendUsdc.tsx:48-56 | after a success the Send button is disabled (fields emptied); after a failure it is enabled (fields kept, not loading) |
| SendUsdc.Step | components/SendUsdc.tsx:74-98 | typing changes only the field typed into, and nothing while loading (inputs disabled); a click on a disabled button (`SendEnabled` false) does nothing; an enabled click shows exactly the settled state of the handler, so loading is off and, with a wallet, signature and error are not both set |
| SendUsdc.RunUiSettled | components/SendUsdc.tsx:74-98 | under any sequence of edits and clicks, with controls disabled as rendered, a settled form stays settled: not loading, signature and error not both shown, no signature without a wallet |
| SendUsdc.WalletLossShowsBoth | components/SendUsdc.tsx:22-29 | if the wallet key is lost while the form stays mounted, a success followed by a click shows the old signature and the fill-in-all-fields error together, so RunUiSettled needs the fixed wallet |
| SendUsdc.InitialSettled | components/SendUsdc.tsx:15-19 | the freshly mounted form is settled, so every reachable state is |

## Left out

- The balance readers `getBalance` and `getUsdcBalance` and the shared RPC
  `connection` (lib/solana.ts:4-32). They are network calls, and their results
  are floating-point divisions.
- `clusterApiUrl('devnet')` (lib/constants.ts:4) belongs to the chain library.
  `BuildConfig` takes the RPC URL it yields as a parameter.
- The duplicate `LAZORKIT_CONFIG` in lib/constants.ts:10-13 is unused. So is
  `USDC_MINT_DEVNET`, except by the left-out USDC balance reader.
- The amount conversion `parseFloat(amount) * 1_000_000_000`
  (components/SendUsdc.tsx:33) is floating point. The source does not guard
  against NaN, zero or negative amounts, and the model adds no such guard: the
  amount text goes to the external step as typed.
- `new PublicKey`, `SystemProgram.transfer` and `signAndSendTransaction`
  (components/SendUsdc.tsx:32-46) are SDK and library calls. They are folded
  into one external step, and its answer is the `SendOutcome` parameter. The
  `clusterSimulation: 'devnet'` option is not modelled.
- SendUsdc.HandleSend: runs as one atomic transition. React's asynchronous
  state updates and re-renders in between are not modelled. The in-flight
  state is exposed as `pending` instead.
- SendUsdc.RunUiSettled: assumes the SDK keeps `smartWalletPubkey` the same
  non-null key while `isConnected` holds. The page unmounts the form only on
  `!isConnected` (app/wallet/page.tsx:34-41), while `handleSend` reads the
  key (components/SendUsdc.tsx:22). If the key became null while still
  connected, the form would keep its state, and `WalletLossShowsBoth` shows
  that a signature and an error could then be shown together.
- JsString.Slice: a Dafny string is a sequence of Unicode code points, while
  JavaScript `slice` and `length` count UTF-16 code units, so the two differ
  on characters outside the Basic Multilingual Plane. The client only slices
  wallet addresses (components/WalletStatus.tsx:66) and only links
  transaction signatures (components/SendUsdc.tsx:126), both base58 text,
  where every character is one ASCII code unit and the two counts agree.
- Lazorkit.Save: treats "a browser context exists" as "local storage works".
  The source calls `setItem`, `getItem` and `removeItem` without a `try`
  (lib/lazorkit.ts:16, 22, 29). There, storage blocked by the browser throws
  a SecurityError, and a full storage makes `setItem` throw
  QuotaExceededError. Those exceptions are not modelled, so the round trip
  holds only when the storage calls succeed. The same applies to
  Lazorkit.Load and Lazorkit.Clear.
- The `console.error` logging in `handleSend` (components/SendUsdc.tsx:52),
  `PasskeyLogin` and the balance readers is output only, and is not modelled.
- Solana.ShortenAddress: `chars` is an integer. JavaScript would also accept
  fractional, NaN or infinite numbers, and those are not modelled.
- The balance polling with `setInterval` and the copy-to-clipboard flag with
  `setTimeout` (components/WalletStatus.tsx:18-37) depend on timers and the
  effect lifecycle.
- Three WalletStatus and PasskeyLogin pieces depend on WebAuthn, the SDK and
  React effect timing:
  - the passkey connect (components/PasskeyLogin.tsx:19-25);
  - the effect that saves the key when it appears
    (components/PasskeyLogin.tsx:13-17);
  - disconnect-then-clear (components/WalletStatus.tsx:39-42).
  Their storage effects are the `Save` and `Clear` modelled here.
- Session restore on page load is advertised (app/page.tsx:72), but nothing
  calls `getWalletSession`, so no restore is modelled.
- All JSX markup and the two pages are presentation.
