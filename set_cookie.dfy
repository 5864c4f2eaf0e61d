/**
 * Extraction of the delegated LtpaToken2 cookie from the `set-cookie`
 * entries of the z/OSMF reply. Each entry is a set-cookie-string; the text
 * before its first ';' is its cookie-pair (section 4.1.1 of RFC 6265).
 * The entry kept is the LAST one, in header order, whose cookie-pair
 * contains the marker `LtpaToken2` anywhere.
 */
module SetCookie {
  import opened Wrappers
  import opened JsStrings

  /** The marker looked for in each cookie-pair. */
  const TokenName: string := "LtpaToken2"

  /** The cookie-pair of a set-cookie entry: `cookie.split(';')[0]`. */
  function CookiePair(entry: string): (pair: string)
    ensures pair <= entry && ';' !in pair
    ensures |pair| < |entry| ==> entry[|pair|] == ';'
  {
    SplitHead(entry, ';')
  }

  /**
   * `content.indexOf('LtpaToken2') >= 0`: the marker occurs somewhere in
   * `content`, which is then at least as long as the marker.
   */
  predicate CarriesToken(content: string)
    ensures CarriesToken(content) <==> exists j :: OccursAt(content, TokenName, j)
    ensures CarriesToken(content) ==> |content| >= |TokenName|
  {
    IndexOf(content, TokenName) >= 0
  }

  predicate IsTokenEntry(entry: string) {
    CarriesToken(CookiePair(entry))
  }

  /**
   * The position of the entry that supplies the token: the last token
   * entry, with no token entry after it; -1 when no entry is a token entry.
   */
  function LastTokenIndex(entries: seq<string>): (k: int)
    ensures -1 <= k < |entries|
    ensures k >= 0 ==> IsTokenEntry(entries[k])
    ensures forall j :: k < j < |entries| ==> !IsTokenEntry(entries[j])
    decreases |entries|
  {
    if entries == [] then -1
    else if IsTokenEntry(entries[|entries| - 1]) then |entries| - 1
    else LastTokenIndex(entries[..|entries| - 1])
  }

  /** The token the scan of `entries` ends with, or `None` when no entry carries one. */
  function TokenOf(entries: seq<string>): (t: Option<string>)
    ensures t.Some? <==> exists i :: 0 <= i < |entries| && IsTokenEntry(entries[i])
    ensures t.Some? ==> CarriesToken(t.value) && ';' !in t.value
    ensures t.Some? ==> exists i :: 0 <= i < |entries| && t.value == CookiePair(entries[i]) && t.value <= entries[i]
  {
    var k := LastTokenIndex(entries);
    if k < 0 then None else Some(CookiePair(entries[k]))
  }

  /** One step of the scan: a token entry at the end replaces whatever was found before it. */
  lemma TokenOfSnoc(entries: seq<string>, entry: string)
    ensures TokenOf(entries + [entry]) == if IsTokenEntry(entry) then Some(CookiePair(entry)) else TokenOf(entries)
  {
    assert (entries + [entry])[..|entries|] == entries;
  }

  /** Last match wins: a token among later entries overrides any token among earlier ones. */
  lemma {:induction false} TokenOfConcat(front: seq<string>, back: seq<string>)
    ensures TokenOf(front + back) == if TokenOf(back).Some? then TokenOf(back) else TokenOf(front)
    decreases |back|
  {
    if back == [] {
      assert front + back == front;
    } else {
      var init, last := back[..|back| - 1], back[|back| - 1];
      assert back == init + [last];
      assert front + back == (front + init) + [last];
      TokenOfSnoc(front + init, last);
      TokenOfSnoc(init, last);
      TokenOfConcat(front, init);
    }
  }

  /** The cookie-pairs of all token entries, in header order: an independent reading of the scan. */
  function TokenPairs(entries: seq<string>): seq<string>
    decreases |entries|
  {
    if entries == [] then []
    else (if IsTokenEntry(entries[0]) then [CookiePair(entries[0])] else []) + TokenPairs(entries[1..])
  }

  /** The scan yields the last of the token pairs, and nothing when there are none. */
  lemma {:induction false} TokenIsLastPair(entries: seq<string>)
    ensures TokenOf(entries) == if TokenPairs(entries) == [] then None else Some(TokenPairs(entries)[|TokenPairs(entries)| - 1])
    decreases |entries|
  {
    if entries != [] {
      var head, rest := entries[..1], entries[1..];
      assert entries == head + rest;
      TokenOfConcat(head, rest);
      TokenIsLastPair(rest);
      TokenOfSnoc([], entries[0]);
      assert [] + [entries[0]] == head;
    }
  }

  /**
   * The `for (const cookie of ...)` loop of authenticate: walks the entries
   * in order and keeps the latest cookie-pair that carries the marker.
   */
  method ScanSetCookie(entries: seq<string>) returns (token: Option<string>)
    ensures token == TokenOf(entries)
  {
    token := None;
    for i := 0 to |entries|
      invariant token == TokenOf(entries[..i])
    {
      var content := CookiePair(entries[i]);
      if IndexOf(content, TokenName) >= 0 {
        token := Some(content);
      }
      assert entries[..i + 1] == entries[..i] + [entries[i]];
      TokenOfSnoc(entries[..i], entries[i]);
    }
    assert entries[..|entries|] == entries;
  }
}
