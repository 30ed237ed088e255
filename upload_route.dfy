/** `POST /api/upload` (`app/api/upload/route.ts`): the stored file name and its public URL. */
module UploadRoute {
  import opened Wrappers
  import opened Strings
  import opened Json
  import opened MockData

  /** The characters `/[^a-zA-Z0-9.-]/` leaves alone. */
  predicate Kept(ch: char)
  {
    'a' <= ch <= 'z' || 'A' <= ch <= 'Z' || '0' <= ch <= '9' || ch == '.' || ch == '-'
  }

  /** The characters a sanitised name is made of: the kept ones and the `_` put in place of the rest. */
  predicate Clean(ch: char)
  {
    Kept(ch) || ch == '_'
  }

  /**
   * The replacement for one character. Without the `u` flag the pattern
   * matches UTF-16 code units, so a character outside the Basic
   * Multilingual Plane (a surrogate pair) becomes two underscores.
   */
  function SanitizeChar(ch: char): (r: string)
    ensures Kept(ch) ==> r == [ch]
    ensures !Kept(ch) ==> (r == "_" || r == "__")
    ensures Clean(ch) ==> r == [ch]
    ensures |r| == Utf16Width(ch)
  {
    if Kept(ch) then [ch] else if ch as int > 0xFFFF then "__" else "_"
  }

  /** The number of UTF-16 code units JavaScript stores for a character. */
  function Utf16Width(ch: char): nat
  {
    if ch as int > 0xFFFF then 2 else 1
  }

  /** JavaScript's `s.length`. */
  function Utf16Length(s: string): nat
  {
    if s == [] then 0 else Utf16Width(s[0]) + Utf16Length(s[1..])
  }

  /** `name.replace(/[^a-zA-Z0-9.-]/g, "_")`. */
  function Sanitize(name: string): (r: string)
    ensures forall i :: 0 <= i < |r| ==> Clean(r[i])
    ensures |r| == Utf16Length(name)
    ensures (forall i :: 0 <= i < |name| ==> Clean(name[i])) ==> r == name
  {
    if name == [] then ""
    else
      assert (forall i :: 0 <= i < |name| ==> Clean(name[i])) ==> forall i :: 0 <= i < |name[1..]| ==> Clean(name[1..][i]);
      assert name == [name[0]] + name[1..];
      SanitizeChar(name[0]) + Sanitize(name[1..])
  }

  /** On names without surrogate pairs, character `i` of the result is character `i` of the name or `_`. */
  lemma {:induction false} SanitizeBmp(name: string)
    requires forall i :: 0 <= i < |name| ==> name[i] as int <= 0xFFFF
    ensures |Sanitize(name)| == |name|
    ensures forall i :: 0 <= i < |name| ==> Sanitize(name)[i] == if Kept(name[i]) then name[i] else '_'
  {
    if name != [] {
      SanitizeBmp(name[1..]);
      var rest := Sanitize(name[1..]);
      assert Sanitize(name) == SanitizeChar(name[0]) + rest;
      forall i | 0 <= i < |name|
        ensures Sanitize(name)[i] == if Kept(name[i]) then name[i] else '_'
      {
        if i > 0 {
          assert Sanitize(name)[i] == rest[i - 1];
          assert name[i] == name[1..][i - 1];
        }
      }
    }
  }

  /** Sanitising a sanitised name changes nothing. */
  lemma SanitizeIdempotent(name: string)
    ensures Sanitize(Sanitize(name)) == Sanitize(name)
  {
  }

  /** The sanitised name has no path separator of either platform. */
  lemma SanitizeNoSeparators(name: string)
    ensures '/' !in Sanitize(name) && '\\' !in Sanitize(name)
  {
    var r := Sanitize(name);
    assert forall i :: 0 <= i < |r| ==> r[i] != '/' && r[i] != '\\';
  }

  /** `${Date.now()}_${sanitised}`. */
  function FileName(nowMs: nat, name: string): (f: string)
    ensures NatToString(nowMs) + "_" <= f
    ensures f[|NatToString(nowMs)| + 1..] == Sanitize(name)
  {
    NatToString(nowMs) + "_" + Sanitize(name)
  }

  /** `/images/hotels/${fileName}`. */
  function PublicUrl(fileName: string): (url: string)
    ensures "/images/hotels/" <= url && url[|"/images/hotels/"|..] == fileName
  {
    "/images/hotels/" + fileName
  }

  /**
   * The stored name stays a single component inside `public/images/hotels`:
   * it has no separator, and it is neither `.` nor `..` since it contains `_`.
   */
  lemma FileNameStaysInDirectory(nowMs: nat, name: string)
    ensures var f := FileName(nowMs, name);
      '/' !in f && '\\' !in f && f != "." && f != ".." && '_' in f
  {
    var f := FileName(nowMs, name);
    var stamp := NatToString(nowMs);
    SanitizeNoSeparators(name);
    assert forall i :: 0 <= i < |stamp| ==> '0' <= stamp[i] <= '9';
    assert f[|stamp|] == '_';
    forall i | 0 <= i < |f|
      ensures f[i] != '/' && f[i] != '\\'
    {
      if i > |stamp| {
        assert f[i] == Sanitize(name)[i - |stamp| - 1];
      }
    }
  }

  /** `formData.get("file")`: absent, a file, or a plain text field. */
  datatype FormEntry =
    | FileEntry(name: string, content: seq<bv8>)
    | TextEntry(value: string)

  datatype UploadResult =
    | NoFile
    | Failed
    | Stored(fileName: string, content: seq<bv8>)

  /**
   * The route's decision. A missing entry or an empty text field is falsy
   * and refused; a non-empty text field has no `arrayBuffer`, so the route
   * throws and answers 500; a file is stored under its timestamped name.
   */
  function Upload(entry: Option<FormEntry>, nowMs: nat): (r: UploadResult)
    ensures r.NoFile? <==> entry.None? || entry == Some(TextEntry(""))
    ensures r.Failed? <==> entry.Some? && entry.value.TextEntry? && entry.value.value != ""
    ensures r.Stored? ==>
      entry.Some? && entry.value.FileEntry?
      && r.fileName == FileName(nowMs, entry.value.name) && r.content == entry.value.content
  {
    match entry
    case None => NoFile
    case Some(TextEntry(v)) => if v == "" then NoFile else Failed
    case Some(FileEntry(name, content)) => Stored(FileName(nowMs, name), content)
  }

  function UploadReply(r: UploadResult): (reply: Reply)
    ensures r.NoFile? <==> reply.status == 400
    ensures r.Failed? <==> reply.status == 500
    ensures r.Stored? <==> reply.status == 200
    ensures r.Stored? ==> reply.body == JObject(map["url" := JStr(PublicUrl(r.fileName))])
  {
    match r
    case NoFile => Reply(400, JObject(map["error" := JStr("No file provided")]), None)
    case Failed => Reply(500, JObject(map["error" := JStr("Upload failed")]), None)
    case Stored(fileName, _) => Reply(200, JObject(map["url" := JStr(PublicUrl(fileName))]), None)
  }

  /** The URL sent back names the file written, under `/images/hotels/`. */
  lemma UrlNamesStoredFile(name: string, content: seq<bv8>, nowMs: nat)
    ensures var r := Upload(Some(FileEntry(name, content)), nowMs);
      r.Stored? && UploadReply(r).body == JObject(map["url" := JStr("/images/hotels/" + NatToString(nowMs) + "_" + Sanitize(name))])
  {
    var dir, stamp, clean := "/images/hotels/", NatToString(nowMs), Sanitize(name);
    var r := Upload(Some(FileEntry(name, content)), nowMs);
    assert r.fileName == stamp + "_" + clean;
    assert dir + (stamp + "_" + clean) == dir + stamp + "_" + clean;
  }
}
