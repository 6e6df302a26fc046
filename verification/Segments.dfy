/**
 How a static mount reads a request path (src/files.rs): percent-decoding, the segments it accepts, and
 the redirect it sends when a directory is asked for without its slash. Paths are bytes, as on the wire;
 every character the mount looks for is ASCII, so in valid UTF-8 a byte comparison is a character one.
 */
module Paths {
  import opened Util
  import opened Splitting

  type Byte = b: int | 0 <= b < 256
  type Bytes = seq<Byte>

  const SLASH: Byte := 47
  const PERCENT: Byte := 37
  const DOT: Byte := 46
  const SPACE: Byte := 32
  const COLON: Byte := 58
  const BACKSLASH: Byte := 92

  // ----- Percent-decoding -----

  function Hex(b: Byte): Option<nat> {
    if 48 <= b <= 57 then Some(b - 48)
    else if 65 <= b <= 70 then Some(b - 55)
    else if 97 <= b <= 102 then Some(b - 87)
    else None
  }

  predicate Escape(raw: Bytes) {
    |raw| >= 3 && raw[0] == PERCENT && Hex(raw[1]).Some? && Hex(raw[2]).Some?
  }

  function Unescape(raw: Bytes): Byte
    requires Escape(raw)
  {
    16 * Hex(raw[1]).value + Hex(raw[2]).value
  }

  function Decode(raw: Bytes): Bytes {
    if raw == [] then []
    else if Escape(raw) then [Unescape(raw)] + Decode(raw[3..])
    else [raw[0]] + Decode(raw[1..])
  }

  /** `raw` spells `plain`, each byte either as itself or as an escape in either case of hex. */
  predicate Spells(raw: Bytes, plain: Bytes) {
    if plain == [] then raw == []
    else
      || (raw != [] && raw[0] == plain[0] != PERCENT && Spells(raw[1..], plain[1..]))
      || (Escape(raw) && Unescape(raw) == plain[0] && Spells(raw[3..], plain[1..]))
  }

  lemma {:induction false} SpellingDecodes(raw: Bytes, plain: Bytes)
    requires Spells(raw, plain)
    ensures Decode(raw) == plain
  {
    if plain != [] {
      if raw[0] == plain[0] != PERCENT {
        SpellingDecodes(raw[1..], plain[1..]);
      } else {
        SpellingDecodes(raw[3..], plain[1..]);
      }
    }
  }

  lemma {:induction false} SpellingsJoin(a: Bytes, x: Bytes, b: Bytes, y: Bytes)
    requires Spells(a, x) && Spells(b, y)
    ensures Spells(a + b, x + y)
  {
    if x == [] {
      assert a + b == b && x + y == y;
    } else {
      assert (x + y)[1..] == x[1..] + y;
      if a[0] == x[0] != PERCENT {
        assert (a + b)[1..] == a[1..] + b;
        SpellingsJoin(a[1..], x[1..], b, y);
      } else {
        assert (a + b)[3..] == a[3..] + b;
        SpellingsJoin(a[3..], x[1..], b, y);
      }
    }
  }

  // ----- UTF-8 -----

  predicate Tail(b: Byte) {
    0x80 <= b <= 0xBF
  }

  /** The length of the well-formed UTF-8 sequence `s` starts with, zero if there is none. */
  function Lead(s: Bytes): (n: nat)
    ensures n <= |s|
    ensures forall i :: 1 <= i < n ==> s[i] >= 0x80
  {
    if s == [] then 0
    else if s[0] < 0x80 then 1
    else if 0xC2 <= s[0] <= 0xDF then if |s| >= 2 && Tail(s[1]) then 2 else 0
    else if 0xE0 <= s[0] <= 0xEF then
      if |s| >= 3 && Tail(s[1]) && Tail(s[2]) && (s[0] == 0xE0 ==> s[1] >= 0xA0) && (s[0] == 0xED ==> s[1] <= 0x9F)
      then 3 else 0
    else if 0xF0 <= s[0] <= 0xF4 then
      if |s| >= 4 && Tail(s[1]) && Tail(s[2]) && Tail(s[3]) && (s[0] == 0xF0 ==> s[1] >= 0x90)
        && (s[0] == 0xF4 ==> s[1] <= 0x8F)
      then 4 else 0
    else 0
  }

  predicate Utf8(s: Bytes) {
    s == [] || (Lead(s) > 0 && Utf8(s[Lead(s)..]))
  }

  lemma LeadStays(a: Bytes, b: Bytes)
    requires Lead(a) > 0
    ensures Lead(a + b) == Lead(a) && (a + b)[Lead(a)..] == a[Lead(a)..] + b
  {
    assert forall i :: 0 <= i < |a| ==> (a + b)[i] == a[i];
  }

  lemma {:induction false} Utf8Joins(a: Bytes, b: Bytes)
    requires Utf8(a) && Utf8(b)
    ensures Utf8(a + b)
  {
    if a == [] {
      assert a + b == b;
    } else {
      LeadStays(a, b);
      Utf8Joins(a[Lead(a)..], b);
    }
  }

  /** Valid text cut just before an ASCII character is valid on both sides. */
  lemma {:induction false} Utf8Cuts(a: Bytes, b: Bytes)
    requires b != [] && b[0] < 0x80 && Utf8(a + b)
    ensures Utf8(a) && Utf8(b)
  {
    if a == [] {
      assert a + b == b;
    } else {
      var n := Lead(a + b);
      assert (a + b)[|a|] == b[0];
      assert n <= |a|;
      assert forall i :: 0 <= i < n ==> (a + b)[i] == a[i];
      assert Lead(a) == n;
      assert (a + b)[n..] == a[n..] + b;
      Utf8Cuts(a[n..], b);
    }
  }

  // ----- Splitting at slashes -----

  /** A text is valid exactly when what stands on both sides of a slash is. */
  lemma Utf8AtSlash(a: Bytes, b: Bytes)
    ensures Utf8(a + [SLASH] + b) <==> Utf8(a) && Utf8(b)
  {
    var tail := [SLASH] + b;
    assert tail[1..] == b && Lead(tail) == 1;
    assert a + [SLASH] + b == a + tail;
    if Utf8(a + tail) {
      Utf8Cuts(a, tail);
    } else if Utf8(a) && Utf8(b) {
      Utf8Joins(a, tail);
    }
  }

  lemma {:induction false} Utf8Parts(parts: seq<Bytes>)
    requires |parts| >= 1
    ensures Utf8(Join(parts, SLASH)) <==> forall i :: 0 <= i < |parts| ==> Utf8(parts[i])
  {
    if |parts| > 1 {
      var rest := parts[1..];
      Utf8Parts(rest);
      Utf8AtSlash(parts[0], Join(rest, SLASH));
      assert forall i :: 1 <= i < |parts| ==> parts[i] == rest[i - 1];
      assert forall i :: 0 <= i < |rest| ==> rest[i] == parts[i + 1];
    }
  }

  // ----- The segments a mount accepts -----

  function Ascii(s: string): Bytes
    requires forall i :: 0 <= i < |s| ==> s[i] < 128 as char
  {
    seq(|s|, i requires 0 <= i < |s| => s[i] as int)
  }

  const DEVICES: seq<Bytes> := [
    Ascii("con"), Ascii("prn"), Ascii("aux"), Ascii("nul"), Ascii("conin$"), Ascii("conout$"),
    Ascii("com1"), Ascii("com2"), Ascii("com3"), Ascii("com4"), Ascii("com5"), Ascii("com6"), Ascii("com7"),
    Ascii("com8"), Ascii("com9"),
    Ascii("lpt1"), Ascii("lpt2"), Ascii("lpt3"), Ascii("lpt4"), Ascii("lpt5"), Ascii("lpt6"), Ascii("lpt7"),
    Ascii("lpt8"), Ascii("lpt9")]

  function Lower(s: Bytes): Bytes {
    seq(|s|, i requires 0 <= i < |s| => if 65 <= s[i] <= 90 then s[i] + 32 else s[i])
  }

  /** A name up to its first dot. */
  function Stem(s: Bytes): Bytes {
    if s == [] || s[0] == DOT then [] else [s[0]] + Stem(s[1..])
  }

  predicate WindowsHazard(segment: Bytes)
    requires segment != []
  {
    || segment[|segment| - 1] == DOT
    || segment[|segment| - 1] == SPACE
    || Lower(Stem(segment)) in DEVICES
  }

  predicate Accepted(segment: Bytes, dotfiles: bool)
    requires segment != []
  {
    && segment != [DOT] && segment != [DOT, DOT]
    && BACKSLASH !in segment && 0 !in segment && COLON !in segment
    && !WindowsHazard(segment)
    && (segment[0] == DOT ==> dotfiles)
  }

  function NonEmpty(parts: seq<Bytes>): (r: seq<Bytes>) {
    if parts == [] then []
    else (if parts[0] == [] then [] else [parts[0]]) + NonEmpty(parts[1..])
  }

  predicate AllAccepted(parts: seq<Bytes>, dotfiles: bool) {
    forall i :: 0 <= i < |parts| && parts[i] != [] ==> Accepted(parts[i], dotfiles)
  }

  /** What a request path means under a mount: the non-empty segments of what it spells, or nothing. */
  function Parts(raw: Bytes, dotfiles: bool): Option<seq<Bytes>> {
    var plain := Decode(raw);
    if Utf8(plain) && AllAccepted(Split(plain, SLASH), dotfiles) then Some(NonEmpty(Split(plain, SLASH))) else None
  }

  lemma {:induction false} NonEmptyAppend(parts: seq<Bytes>, last: Bytes)
    ensures NonEmpty(parts + [last]) == NonEmpty(parts) + if last == [] then [] else [last]
  {
    if parts == [] {
      assert parts + [last] == [last] && [last][1..] == [];
    } else {
      assert (parts + [last])[1..] == parts[1..] + [last];
      NonEmptyAppend(parts[1..], last);
    }
  }

  method Segments(raw: Bytes, dotfiles: bool) returns (r: Option<seq<Bytes>>)
    ensures r == Parts(raw, dotfiles)
  {
    var decoded := Decode(raw);
    if !Utf8(decoded) {
      return None;
    }
    var out, split := [], Split(decoded, SLASH);
    for k := 0 to |split|
      invariant AllAccepted(split[..k], dotfiles) && out == NonEmpty(split[..k])
    {
      var segment := split[k];
      assert split[..k + 1] == split[..k] + [segment];
      NonEmptyAppend(split[..k], segment);
      if segment == [] {
        continue;
      }
      if segment == [DOT] || segment == [DOT, DOT] || BACKSLASH in segment || 0 in segment || COLON in segment {
        return None;
      }
      if WindowsHazard(segment) {
        return None;
      }
      if segment[0] == DOT && !dotfiles {
        return None;
      }
      out := out + [segment];
    }
    assert split[..|split|] == split;
    r := Some(out);
  }

  /** However a path is spelled, `%2e%2e` for `..` or `%2F` for a slash, it means the same. */
  lemma SpellingDoesNotMatter(a: Bytes, b: Bytes, plain: Bytes, dotfiles: bool)
    requires Spells(a, plain) && Spells(b, plain)
    ensures Parts(a, dotfiles) == Parts(b, dotfiles)
  {
    SpellingDecodes(a, plain);
    SpellingDecodes(b, plain);
  }

  predicate Clean(part: Bytes, dotfiles: bool) {
    part != [] && SLASH !in part && Utf8(part) && Accepted(part, dotfiles)
  }

  lemma {:induction false} NonEmptyKeeps(parts: seq<Bytes>, dotfiles: bool)
    requires NowhereIn(SLASH, parts) && AllAccepted(parts, dotfiles) && forall i :: 0 <= i < |parts| ==> Utf8(parts[i])
    ensures forall i :: 0 <= i < |NonEmpty(parts)| ==> Clean(NonEmpty(parts)[i], dotfiles)
  {
    if parts != [] {
      assert forall i :: 0 <= i < |parts[1..]| ==> parts[1..][i] == parts[i + 1];
      NonEmptyKeeps(parts[1..], dotfiles);
    }
  }

  /** Every part of an accepted path is one plain name: not `..`, and with no separator of any kind. */
  lemma PartsAreNames(raw: Bytes, dotfiles: bool)
    ensures var r := Parts(raw, dotfiles);
      r.Some? ==> forall i :: 0 <= i < |r.value| ==> Clean(r.value[i], dotfiles)
  {
    var plain := Decode(raw);
    if Parts(raw, dotfiles).Some? {
      SplitJoins(plain, SLASH);
      Utf8Parts(Split(plain, SLASH));
      NonEmptyKeeps(Split(plain, SLASH), dotfiles);
    }
  }

  lemma CleanIsPlain(part: Bytes, dotfiles: bool)
    requires Clean(part, dotfiles)
    ensures part != [] && part != [DOT] && part != [DOT, DOT] && SLASH !in part
  {
  }

  // ----- The redirect to a directory's slash -----

  /** The characters a segment may not carry as themselves into a redirect. */
  predicate Encoded(b: Byte) {
    b < 32 || b >= 127 || b in {SPACE, 34, 35, 60, 62, 63, 96, 123, 125, PERCENT, SLASH}
  }

  function HexDigit(n: nat): (b: Byte)
    requires n < 16
    ensures Hex(b) == Some(n)
  {
    if n < 10 then 48 + n else 55 + n
  }

  function EncodeByte(b: Byte): Bytes {
    if Encoded(b) then [PERCENT, HexDigit(b / 16), HexDigit(b % 16)] else [b]
  }

  function Encode(part: Bytes): Bytes {
    if part == [] then [] else EncodeByte(part[0]) + Encode(part[1..])
  }

  lemma {:induction false} EncodeSpells(part: Bytes)
    ensures Spells(Encode(part), part)
  {
    if part != [] {
      EncodeSpells(part[1..]);
      var head := EncodeByte(part[0]);
      assert (head + Encode(part[1..]))[|head|..] == Encode(part[1..]);
      assert Encoded(part[0]) ==> Escape(head + Encode(part[1..]));
    }
  }

  /** The part of the redirect's path that the mount's catch-all captures. */
  function RedirectPath(parts: seq<Bytes>): Bytes {
    if parts == [] then [] else Encode(parts[0]) + [SLASH] + RedirectPath(parts[1..])
  }

  method Redirect(prefix: Bytes, parts: seq<Bytes>) returns (to: Bytes)
    ensures to == (if prefix == [SLASH] then [] else prefix) + [SLASH] + RedirectPath(parts)
  {
    to := if prefix == [SLASH] then [] else prefix;
    ghost var start := to;
    for k := 0 to |parts|
      invariant to + [SLASH] + RedirectPath(parts[k..]) == start + [SLASH] + RedirectPath(parts)
    {
      assert parts[k..][1..] == parts[k + 1..];
      to := to + [SLASH];
      to := to + Encode(parts[k]);
    }
    to := to + [SLASH];
  }

  lemma {:induction false} RedirectSpells(parts: seq<Bytes>)
    ensures Spells(RedirectPath(parts), Join(parts + [[]], SLASH))
  {
    if parts != [] {
      RedirectSpells(parts[1..]);
      assert (parts + [[]])[1..] == parts[1..] + [[]];
      EncodeSpells(parts[0]);
      assert Spells([SLASH], [SLASH]) by {
        assert Spells([], []) && [SLASH][1..] == [];
      }
      SpellingsJoin(Encode(parts[0]), parts[0], [SLASH], [SLASH]);
      SpellingsJoin(Encode(parts[0]) + [SLASH], parts[0] + [SLASH], RedirectPath(parts[1..]),
                    Join(parts[1..] + [[]], SLASH));
    }
  }

  lemma {:induction false} NonEmptyAll(parts: seq<Bytes>)
    requires forall i :: 0 <= i < |parts| ==> parts[i] != []
    ensures NonEmpty(parts) == parts
  {
    if parts != [] {
      NonEmptyAll(parts[1..]);
    }
  }

  lemma AllClean(parts: seq<Bytes>, dotfiles: bool)
    requires forall i :: 0 <= i < |parts| ==> Clean(parts[i], dotfiles)
    ensures NowhereIn(SLASH, parts + [[]]) && AllAccepted(parts + [[]], dotfiles)
    ensures forall i :: 0 <= i < |parts + [[]]| ==> Utf8((parts + [[]])[i])
    ensures NonEmpty(parts + [[]]) == parts
  {
    NonEmptyAppend(parts, []);
    NonEmptyAll(parts);
  }

  lemma PartsOf(raw: Bytes, all: seq<Bytes>, dotfiles: bool)
    requires |all| >= 1 && NowhereIn(SLASH, all) && AllAccepted(all, dotfiles)
    requires forall i :: 0 <= i < |all| ==> Utf8(all[i])
    requires Spells(raw, Join(all, SLASH))
    ensures Parts(raw, dotfiles) == Some(NonEmpty(all))
  {
    SpellingDecodes(raw, Join(all, SLASH));
    JoinSplits(all, SLASH);
    Utf8Parts(all);
  }

  /**
   The redirect lands: the path it sends the client to, decoded and split again, is the directory that
   was asked for, whatever characters its name holds and however the first request spelled it.
   */
  lemma RedirectLands(raw: Bytes, dotfiles: bool)
    requires Parts(raw, dotfiles).Some?
    ensures Parts(RedirectPath(Parts(raw, dotfiles).value), dotfiles) == Parts(raw, dotfiles)
  {
    PartsAreNames(raw, dotfiles);
    var parts := Parts(raw, dotfiles).value;
    AllClean(parts, dotfiles);
    RedirectSpells(parts);
    PartsOf(RedirectPath(parts), parts + [[]], dotfiles);
  }
}
