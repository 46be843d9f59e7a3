/**
 * `encodeURIComponent` and the repository path the validator builds from a model id
 * (`modelId.split('/').map(encodeURIComponent).join('/')`).
 */
module Uri {
  import opened Text

  /** The characters `encodeURIComponent` leaves as they are. */
  predicate IsUnreserved(c: char) {
    || ('A' <= c <= 'Z') || ('a' <= c <= 'z') || ('0' <= c <= '9')
    || c == '-' || c == '_' || c == '.' || c == '!' || c == '~'
    || c == '*' || c == '\'' || c == '(' || c == ')'
  }

  predicate IsHexUpper(c: char) {
    ('0' <= c <= '9') || ('A' <= c <= 'F')
  }

  function HexDigit(d: nat): (c: char)
    requires d < 16
    ensures IsHexUpper(c)
  {
    "0123456789ABCDEF"[d]
  }

  /** The UTF-8 encoding of one Unicode scalar value. */
  function Utf8(c: char): (bytes: seq<nat>)
    ensures 1 <= |bytes| <= 4
    ensures forall i :: 0 <= i < |bytes| ==> bytes[i] < 256
  {
    var cp := c as int;
    if cp < 0x80 then [cp]
    else if cp < 0x800 then [0xC0 + cp / 0x40, 0x80 + cp % 0x40]
    else if cp < 0x10000 then [0xE0 + cp / 0x1000, 0x80 + (cp / 0x40) % 0x40, 0x80 + cp % 0x40]
    else [0xF0 + cp / 0x40000, 0x80 + (cp / 0x1000) % 0x40, 0x80 + (cp / 0x40) % 0x40, 0x80 + cp % 0x40]
  }

  /** `%XX` escapes, upper-case hexadecimal, one per byte. */
  function PercentEscape(bytes: seq<nat>): (r: string)
    requires forall i :: 0 <= i < |bytes| ==> bytes[i] < 256
    ensures |r| == 3 * |bytes|
    ensures forall i :: 0 <= i < |r| ==> r[i] == '%' || IsHexUpper(r[i])
  {
    if bytes == [] then ""
    else ['%', HexDigit(bytes[0] / 16), HexDigit(bytes[0] % 16)] + PercentEscape(bytes[1..])
  }

  /** `encodeURIComponent` of one character. */
  function EncodeChar(c: char): (r: string)
    ensures IsUnreserved(c) ==> r == [c]
    ensures !IsUnreserved(c) ==> r != [] && r[0] == '%'
    ensures forall i :: 0 <= i < |r| ==> IsUnreserved(r[i]) || r[i] == '%'
  {
    if IsUnreserved(c) then [c] else PercentEscape(Utf8(c))
  }

  /** `encodeURIComponent`: the result never holds a `/`, and a string made of
      unreserved characters is its own encoding. */
  function EncodeComponent(s: string): (r: string)
    ensures '/' !in r
    ensures (forall i :: 0 <= i < |s| ==> IsUnreserved(s[i])) ==> r == s
    ensures forall i :: 0 <= i < |r| ==> IsUnreserved(r[i]) || r[i] == '%'
  {
    if s == [] then "" else EncodeChar(s[0]) + EncodeComponent(s[1..])
  }

  function EncodeAll(parts: seq<string>): (r: seq<string>)
    ensures |r| == |parts|
    ensures forall i :: 0 <= i < |r| ==> r[i] == EncodeComponent(parts[i])
  {
    if parts == [] then [] else [EncodeComponent(parts[0])] + EncodeAll(parts[1..])
  }

  /** The path of a model repository, one encoded component per `/`-separated segment. */
  function RepoPath(modelId: string): string {
    Join(EncodeAll(Split(modelId, '/')), "/")
  }

  /** Encoding segment by segment keeps the number of `/`: the repository path has
      exactly as many levels as the model id. */
  lemma RepoPathKeepsSlashes(modelId: string)
    ensures Count(RepoPath(modelId), '/') == Count(modelId, '/')
  {
    var parts := EncodeAll(Split(modelId, '/'));
    SplitLength(modelId, '/');
    CountJoin(parts, '/');
  }

  /** A model id written only with unreserved characters and `/` is used verbatim. */
  lemma RepoPathOfPlainId(modelId: string)
    requires forall i :: 0 <= i < |modelId| ==> IsUnreserved(modelId[i]) || modelId[i] == '/'
    ensures RepoPath(modelId) == modelId
  {
    var pieces := Split(modelId, '/');
    forall i | 0 <= i < |pieces|
      ensures EncodeComponent(pieces[i]) == pieces[i]
    {
      forall j | 0 <= j < |pieces[i]|
        ensures IsUnreserved(pieces[i][j])
      {
        assert pieces[i][j] in modelId && pieces[i][j] != '/';
      }
    }
    assert EncodeAll(pieces) == pieces;
    JoinSplit(modelId, '/');
  }
}
