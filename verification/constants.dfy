/** The network name and the block-explorer link built from a transaction
    signature (lib/constants.ts). */
module Constants {
  import opened Optional

  /** The cluster every part of the client talks to. */
  const SolanaNetwork: string := "devnet"

  /** The storage key the constants file declares; nothing reads or writes it
      (the session store uses its own literal key). */
  const WalletStorageKey: string := "lazorkit_wallet_session"

  /** The fixed text before the signature in an explorer link. */
  const ExplorerPrefix: string := "https://explorer.solana.com/tx/"

  /** The fixed text after the signature: the cluster query parameter. */
  const ClusterQuery: string := "?cluster=" + SolanaNetwork

  /** The explorer link for a transaction signature: the signature is spliced
      verbatim between a fixed prefix and the cluster query, with no escaping. */
  function ExplorerUrl(signature: string): (url: string)
    ensures |url| == |ExplorerPrefix| + |signature| + |ClusterQuery|
    ensures url[..|ExplorerPrefix|] == ExplorerPrefix
    ensures url[|ExplorerPrefix|..|ExplorerPrefix| + |signature|] == signature
    ensures url[|ExplorerPrefix| + |signature|..] == ClusterQuery
  {
    ExplorerPrefix + signature + ClusterQuery
  }

  /** Recovers the signature from a link of the shape ExplorerUrl produces,
      and None for any other string. */
  function ParseExplorerUrl(url: string): (signature: Option<string>)
    ensures signature.Some? ==> |url| == |ExplorerPrefix| + |signature.value| + |ClusterQuery|
  {
    if |ExplorerPrefix| + |ClusterQuery| <= |url|
       && url[..|ExplorerPrefix|] == ExplorerPrefix
       && url[|url| - |ClusterQuery|..] == ClusterQuery
    then Some(url[|ExplorerPrefix|..|url| - |ClusterQuery|])
    else None
  }

  /** `sub` occurs in `s` starting at position `i`. */
  predicate OccursAt(sub: string, s: string, i: int) {
    0 <= i <= |s| - |sub| && s[i..i + |sub|] == sub
  }

  /** With the constants written out, the link is the devnet transaction page. */
  lemma ExplorerUrlIsDevnetPage(signature: string)
    ensures ExplorerUrl(signature) == "https://explorer.solana.com/tx/" + signature + "?cluster=devnet"
  {
  }

  /** Parsing a built link gives back the signature it was built from. */
  lemma ParseBuildsInverse(signature: string)
    ensures ParseExplorerUrl(ExplorerUrl(signature)) == Some(signature)
  {
  }

  /** Building a link from a parsed signature gives back the parsed link. */
  lemma BuildAfterParse(url: string)
    requires ParseExplorerUrl(url).Some?
    ensures ExplorerUrl(ParseExplorerUrl(url).value) == url
  {
  }

  /** Distinct signatures give distinct links. */
  lemma ExplorerUrlInjective(s: string, t: string)
    ensures ExplorerUrl(s) == ExplorerUrl(t) <==> s == t
  {
    if ExplorerUrl(s) == ExplorerUrl(t) {
      ParseBuildsInverse(s);
      ParseBuildsInverse(t);
    }
  }

  /** The signature appears in the link as a contiguous substring. */
  lemma ExplorerUrlContainsSignature(signature: string)
    ensures exists i :: OccursAt(signature, ExplorerUrl(signature), i)
  {
    var url := ExplorerUrl(signature);
    var i := |ExplorerPrefix|;
    assert OccursAt(signature, url, i);
  }
}
