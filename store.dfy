/** The reading of the key-value store's address (store.go): an optional
    "<backend>://" prefix followed by comma-separated node addresses. */
module Store {
  import opened Strings

  const Scheme: string := "://"

  /** The backend used when the address has no scheme. */
  const DefaultBackend: string := "nodes"

  datatype StoreUrl = StoreUrl(backend: string, addrs: seq<string>)

  /** parseStoreUrl: splits at the first "://" and then the nodes at each ','. */
  function ParseStoreUrl(rawurl: string): (r: StoreUrl)
    ensures |r.addrs| >= 1
    ensures Index(rawurl, Scheme) < 0 ==> r.backend == DefaultBackend && Join(r.addrs, ',') == rawurl
    ensures Index(rawurl, Scheme) >= 0 ==> r.backend + Scheme + Join(r.addrs, ',') == rawurl
    ensures forall k :: 0 <= k < |r.addrs| ==> ',' !in r.addrs[k]
  {
    var i := Index(rawurl, Scheme);
    JoinSplit(rawurl, ',');
    SplitPiecesFree(rawurl, ',');
    if i < 0 then StoreUrl(DefaultBackend, Split(rawurl, ','))
    else
      var rest := rawurl[i + |Scheme|..];
      JoinSplit(rest, ',');
      SplitPiecesFree(rest, ',');
      assert rawurl == rawurl[..i] + Scheme + rest;
      StoreUrl(rawurl[..i], Split(rest, ','))
  }

  /** A scheme occurrence inside a prefix of a text occurs in the text. */
  lemma OccursInPrefix(s: string, n: nat, sep: string, j: int)
    requires n <= |s|
    requires OccursAt(s[..n], sep, j)
    ensures OccursAt(s, sep, j)
  {
    assert s[..n][j..j + |sep|] == s[j..j + |sep|];
  }

  /** Only the first "://" separates: the backend never holds one, and any later
      occurrence stays in the node addresses. */
  lemma FirstSchemeSeparates(rawurl: string)
    requires Index(rawurl, Scheme) >= 0
    ensures forall j :: !OccursAt(ParseStoreUrl(rawurl).backend, Scheme, j)
  {
    var i := Index(rawurl, Scheme);
    var b := ParseStoreUrl(rawurl).backend;
    assert b == rawurl[..i];
    forall j | OccursAt(b, Scheme, j)
      ensures false
    {
      OccursInPrefix(rawurl, i, Scheme, j);
    }
  }

  /** An address without a scheme is a list of nodes for the default backend:
      giving the nodes with that scheme in front reads back the same. */
  lemma DefaultSchemeExplicit(rawurl: string)
    requires Index(rawurl, Scheme) < 0
    ensures ParseStoreUrl(DefaultBackend + Scheme + rawurl) == ParseStoreUrl(rawurl)
  {
    var s := DefaultBackend + Scheme + rawurl;
    assert OccursAt(s, Scheme, 5) by {
      assert s[5..8] == Scheme;
    }
    forall j | 0 <= j < 5
      ensures !OccursAt(s, Scheme, j)
    {
      assert s[j] == DefaultBackend[j];
      assert s[j..j + 3][0] != Scheme[0];
    }
    assert Index(s, Scheme) == 5;
    assert s[..5] == DefaultBackend;
    assert s[8..] == rawurl;
  }
}
