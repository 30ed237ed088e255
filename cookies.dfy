/** `parseCookies`, shared verbatim by the refresh and logout routes. */
module Cookies {
  import opened Wrappers
  import opened Strings
  import opened Seqs

  /** One `k=v` piece of the header: trimmed, split on `=`, the value re-joined after the first `=`. */
  function Entry(piece: string): (e: (string, string))
    ensures '=' !in e.0
  {
    var parts := Split(Trim(piece), '=');
    (parts[0], Join(parts[1..], '='))
  }

  function KeyIs(k: string): ((string, string)) -> bool
  {
    (e: (string, string)) => e.0 == k
  }

  /** The value the last entry for `k` carries; that is the one an object built from the entries keeps. */
  function Lookup(entries: seq<(string, string)>, k: string): (v: Option<string>)
    ensures v.None? <==> forall i :: 0 <= i < |entries| ==> entries[i].0 != k
    ensures v.Some? ==>
      exists i :: 0 <= i < |entries| && entries[i] == (k, v.value) && forall j :: i < j < |entries| ==> entries[j].0 != k
  {
    match FindLast(entries, KeyIs(k))
    case None =>
      assert forall i :: 0 <= i < |entries| ==> entries[i] in entries;
      None
    case Some(e) => Some(e.1)
  }

  /** `Object.fromEntries(entries)`: a later entry for the same key replaces an earlier one. */
  function FromEntries(entries: seq<(string, string)>): (m: map<string, string>)
    ensures forall k :: Lookup(entries, k) == if k in m then Some(m[k]) else None
  {
    if entries == [] then map[]
    else
      var init := entries[..|entries| - 1];
      var last := entries[|entries| - 1];
      var m := FromEntries(init);
      m[last.0 := last.1]
  }

  /** The cookies of a `Cookie` header; a missing or empty header has none. */
  function ParseCookies(header: Option<string>): (m: map<string, string>)
    ensures header.None? || header.value == "" ==> m == map[]
    ensures forall k :: k in m ==> '=' !in k
  {
    if header.None? || header.value == "" then map[]
    else
      FromEntries(Entries(header.value))
  }

  /** The header split on `;`, each piece read as an entry. */
  function Entries(header: string): (entries: seq<(string, string)>)
    ensures |entries| == |Split(header, ';')|
    ensures forall i :: 0 <= i < |entries| ==> '=' !in entries[i].0
  {
    var pieces := Split(header, ';');
    seq(|pieces|, i requires 0 <= i < |pieces| => Entry(pieces[i]))
  }

  /** `cookies[name]`, `None` for `undefined`. */
  function Cookie(header: Option<string>, name: string): (v: Option<string>)
    ensures v.Some? <==> name in ParseCookies(header)
    ensures v.Some? ==> v.value == ParseCookies(header)[name]
  {
    var m := ParseCookies(header);
    if name in m then Some(m[name]) else None
  }

  /** A `name=value` piece without blanks, `;` or `=` in the name reads back as that pair. */
  lemma EntryOfPair(name: string, value: string)
    requires '=' !in name
    requires forall i :: 0 <= i < |name| ==> !IsJsSpace(name[i])
    requires forall i :: 0 <= i < |value| ==> !IsJsSpace(value[i])
    ensures Entry(name + "=" + value) == (name, value)
  {
    var piece := name + "=" + value;
    assert forall i :: 0 <= i < |piece| ==> !IsJsSpace(piece[i]) by {
      forall i | 0 <= i < |piece| ensures !IsJsSpace(piece[i]) {
        if i < |name| { assert piece[i] == name[i]; }
        else if i > |name| { assert piece[i] == value[i - |name| - 1]; }
      }
    }
    assert Trim(piece) == piece;
    SplitAtFirst(name, '=', value);
    JoinSplit(value, '=');
  }

  /** The cookie the browser sends last under a name is the one the routes read. */
  lemma LastCookieWins(rest: string, name: string, value: string)
    requires '=' !in name && ';' !in name && ';' !in value
    requires forall i :: 0 <= i < |name| ==> !IsJsSpace(name[i])
    requires forall i :: 0 <= i < |value| ==> !IsJsSpace(value[i])
    ensures Cookie(Some(rest + ";" + name + "=" + value), name) == Some(value)
  {
    var piece := name + "=" + value;
    var header := rest + [';'] + piece;
    assert rest + ";" + name + "=" + value == header;
    LastPiece(rest, piece);
    EntryOfPair(name, value);
    CookieOfLastPiece(header, name, value);
  }

  /** The last piece of a header names the cookie the header yields under its name. */
  lemma CookieOfLastPiece(header: string, name: string, value: string)
    requires header != ""
    requires var pieces := Split(header, ';'); Entry(pieces[|pieces| - 1]) == (name, value)
    ensures Cookie(Some(header), name) == Some(value)
  {
    ParseCookiesLast(header);
  }

  /** Splitting `rest;piece` on `;` ends with `piece` when it has no `;`. */
  lemma LastPiece(rest: string, piece: string)
    requires ';' !in piece
    ensures var pieces := Split(rest + [';'] + piece, ';'); pieces[|pieces| - 1] == piece
  {
    SplitConcat(rest, ';', piece);
    SplitNoSeparator(piece, ';');
  }

  /** The entry of a header's last piece is one of its cookies. */
  lemma ParseCookiesLast(header: string)
    requires header != ""
    ensures var pieces := Split(header, ';'); var e := Entry(pieces[|pieces| - 1]);
      e.0 in ParseCookies(Some(header)) && ParseCookies(Some(header))[e.0] == e.1
  {
    FromEntriesLast(Entries(header));
  }

  /** The last entry's value is the one kept for its key. */
  lemma FromEntriesLast(entries: seq<(string, string)>)
    requires entries != []
    ensures var last := entries[|entries| - 1];
      last.0 in FromEntries(entries) && FromEntries(entries)[last.0] == last.1
  {
  }

  /** A header holding one cookie yields exactly that cookie. */
  lemma SingleCookie(name: string, value: string)
    requires '=' !in name && ';' !in name && ';' !in value
    requires forall i :: 0 <= i < |name| ==> !IsJsSpace(name[i])
    requires forall i :: 0 <= i < |value| ==> !IsJsSpace(value[i])
    ensures ParseCookies(Some(name + "=" + value)) == map[name := value]
  {
    var piece := name + "=" + value;
    SplitNoSeparator(piece, ';');
    EntryOfPair(name, value);
    var entries := Entries(piece);
    assert entries == [(name, value)];
    assert entries[..0] == [];
    assert FromEntries(entries) == FromEntries([])[name := value];
  }
}
