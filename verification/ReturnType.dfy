/**
 * The return-type scanner of runkit.h, against the grammar of nullable, possibly
 * qualified class names.
 */
module ReturnType {

  type byte = x: int | 0 <= x < 256

  const QUESTION: byte := 63
  const BACKSLASH: byte := 92

  predicate IsFirst(c: byte) {
    97 <= c <= 122 || 65 <= c <= 90 || c == 95 || c >= 128
  }

  predicate IsRest(c: byte) {
    48 <= c <= 57 || IsFirst(c)
  }

  predicate IsName(w: seq<byte>) {
    w != [] && IsFirst(w[0]) && forall i | 0 <= i < |w| :: IsRest(w[i])
  }

  /** The names with one backslash between neighbours. */
  function Join(names: seq<seq<byte>>): seq<byte> {
    if names == [] then []
    else if |names| == 1 then names[0]
    else names[0] + [BACKSLASH] + Join(names[1..])
  }

  ghost predicate Qualifies(names: seq<seq<byte>>, s: seq<byte>) {
    names != [] && (forall i | 0 <= i < |names| :: IsName(names[i])) && s == Join(names)
  }

  ghost predicate Qualified(s: seq<byte>) {
    exists names :: Qualifies(names, s)
  }

  function Optional(present: bool, c: byte): seq<byte> {
    if present then [c] else []
  }

  /** '?', '\' and a qualified name, the first two optional. */
  ghost predicate Valid(s: seq<byte>) {
    exists nullable, rooted, rest :: s == Optional(nullable, QUESTION) + Optional(rooted, BACKSLASH) + rest
      && Qualified(rest)
  }

  // ----- reading a qualified name from the left

  lemma JoinStart(names: seq<seq<byte>>, s: seq<byte>)
    requires Qualifies(names, s)
    ensures |names[0]| <= |s| && s[..|names[0]|] == names[0] && s != [] && IsFirst(s[0])
    ensures |names| == 1 ==> s == names[0]
    ensures |names| > 1 ==> |names[0]| < |s| && s[|names[0]|] == BACKSLASH
                            && Qualifies(names[1..], s[|names[0]| + 1..])
  {
    assert IsName(names[0]);
    if |names| > 1 {
      forall i | 0 <= i < |names[1..]| ensures IsName(names[1..][i]) { assert IsName(names[i + 1]); }
      assert s[|names[0]| + 1..] == Join(names[1..]);
    }
  }

  /** The run of name characters at the start of a qualified name is its first name. */
  lemma FirstName(names: seq<seq<byte>>, s: seq<byte>, k: nat)
    requires Qualifies(names, s) && k <= |s|
    requires forall i | 0 <= i < k :: IsRest(s[i])
    requires k < |s| ==> !IsRest(s[k])
    ensures |names[0]| == k
  {
    JoinStart(names, s);
    assert IsName(names[0]);
    forall i | 0 <= i < |names[0]| ensures IsRest(s[i]) { assert s[i] == names[0][i]; }
    assert |names[0]| < |s| ==> !IsRest(s[|names[0]|]);
  }

  lemma StartsWithName(s: seq<byte>)
    requires Qualified(s)
    ensures s != [] && IsFirst(s[0])
  {
    var names :| Qualifies(names, s);
    JoinStart(names, s);
  }

  lemma NotQualified(s: seq<byte>)
    requires s == [] || !IsFirst(s[0])
    ensures !Qualified(s)
  {
    if Qualified(s) { StartsWithName(s); }
  }

  lemma NameQualified(w: seq<byte>)
    requires IsName(w)
    ensures Qualified(w)
  {
    assert Qualifies([w], w);
  }

  /** Past a name, a qualified name goes on with a backslash and a qualified name, or ends. */
  lemma AfterName(s: seq<byte>, k: nat)
    requires 0 < k < |s| && IsName(s[..k]) && !IsRest(s[k])
    ensures Qualified(s) <==> s[k] == BACKSLASH && Qualified(s[k + 1..])
  {
    if Qualified(s) {
      var names :| Qualifies(names, s);
      forall i | 0 <= i < k ensures IsRest(s[i]) { assert s[i] == s[..k][i]; }
      FirstName(names, s, k);
      JoinStart(names, s);
    }
    if s[k] == BACKSLASH && Qualified(s[k + 1..]) {
      var rest :| Qualifies(rest, s[k + 1..]);
      var names := [s[..k]] + rest;
      assert names[1..] == rest;
      assert s == s[..k] + [BACKSLASH] + s[k + 1..];
      assert Qualifies(names, s);
    }
  }

  /** How many bytes an optional '?' and an optional '\' take. */
  function PrefixLength(s: seq<byte>): (n: nat)
    ensures n <= |s|
  {
    var n := if s != [] && s[0] == QUESTION then 1 else 0;
    if n < |s| && s[n] == BACKSLASH then n + 1 else n
  }

  lemma PrefixesStripped(s: seq<byte>)
    ensures Valid(s) <==> Qualified(s[PrefixLength(s)..])
  {
    if Valid(s) {
      var n, r, rest :| s == Optional(n, QUESTION) + Optional(r, BACKSLASH) + rest && Qualified(rest);
      PrefixUnique(s, n, r, rest);
    }
    if Qualified(s[PrefixLength(s)..]) {
      PrefixRead(s);
    }
  }

  lemma PrefixUnique(s: seq<byte>, nullable: bool, rooted: bool, rest: seq<byte>)
    requires s == Optional(nullable, QUESTION) + Optional(rooted, BACKSLASH) + rest && Qualified(rest)
    ensures rest == s[PrefixLength(s)..]
  {
    StartsWithName(rest);
    assert |s| == (if nullable then 1 else 0) + (if rooted then 1 else 0) + |rest|;
    assert nullable ==> s[0] == QUESTION;
    assert rooted ==> s[if nullable then 1 else 0] == BACKSLASH;
    assert s[|s| - |rest|] == rest[0];
  }

  lemma PrefixRead(s: seq<byte>)
    requires Qualified(s[PrefixLength(s)..])
    ensures Valid(s)
  {
    var nullable := s != [] && s[0] == QUESTION;
    var n := if nullable then 1 else 0;
    var rooted := n < |s| && s[n] == BACKSLASH;
    assert s == Optional(nullable, QUESTION) + Optional(rooted, BACKSLASH) + s[PrefixLength(s)..];
  }

  /** In ASCII: a name begins with a letter, an underscore or a byte from 0x80, and goes on with those and digits. */
  lemma NameBytes(c: byte)
    ensures Valid([c]) <==> || 'a' as int <= c <= 'z' as int || 'A' as int <= c <= 'Z' as int
                            || c == '_' as int || c >= 0x80
    ensures Valid(['A' as int, c]) <==> Valid([c]) || '0' as int <= c <= '9' as int
  {
    OneByte(c);
    SecondByte(c);
  }

  lemma OneByte(c: byte)
    ensures Valid([c]) <==> IsFirst(c)
  {
    PrefixesStripped([c]);
    if c != QUESTION && c != BACKSLASH {
      assert [c][PrefixLength([c])..] == [c];
      if IsFirst(c) { NameQualified([c]); } else { NotQualified([c]); }
    } else {
      NotQualified([]);
      assert [c][PrefixLength([c])..] == [];
    }
  }

  lemma SecondByte(c: byte)
    ensures Valid(['A' as int, c]) <==> IsRest(c)
  {
    var two: seq<byte> := [65, c];
    PrefixesStripped(two);
    assert PrefixLength(two) == 0 && two[0..] == two;
    TwoBytes(two, c);
  }

  lemma TwoBytes(two: seq<byte>, c: byte)
    requires two == [65, c]
    ensures Qualified(two) <==> IsRest(c)
  {
    assert two[..1] == [65];
    if IsRest(c) {
      NameQualified(two);
    } else {
      NotQualified([]);
      AfterName(two, 1);
      assert two[2..] == [];
    }
  }

  /** "?A" and "\A" are types, and "A\B" is. */
  lemma SignBytes()
    ensures Valid(['?' as int, 'A' as int]) && Valid(['\\' as int, 'A' as int])
    ensures Valid(['A' as int, '\\' as int, 'B' as int])
  {
    NameQualified([65]);
    NameQualified([66]);
    assert [63, 65] == Optional(true, QUESTION) + Optional(false, BACKSLASH) + [65];
    assert [92, 65] == Optional(false, QUESTION) + Optional(true, BACKSLASH) + [65];
    var three: seq<byte> := [65, 92, 66];
    assert three[..1] == [65] && three[2..] == [66];
    AfterName(three, 1);
    assert three == Optional(false, QUESTION) + Optional(false, BACKSLASH) + three;
  }

  // ----- what the warning for an invalid return type says instead

  const DELETE: byte := 127

  predicate IsAdvertisedName(w: seq<byte>) {
    w != [] && (IsFirst(w[0]) || w[0] == DELETE) && forall i | 0 <= i < |w| :: IsRest(w[i]) || w[i] == DELETE
  }

  ghost predicate AdvertisedAs(s: seq<byte>, nullable: bool, names: seq<seq<byte>>) {
    && names != [] && (forall i | 0 <= i < |names| :: IsAdvertisedName(names[i]))
    && s == Optional(nullable, QUESTION) + Join(names)
  }

  /** The regular expression in the message: no leading backslash, and letters from 0x7f. */
  ghost predicate Advertised(s: seq<byte>) {
    exists nullable, names :: AdvertisedAs(s, nullable, names)
  }

  predicate Rooted(s: seq<byte>) {
    PrefixLength(s) > if s != [] && s[0] == QUESTION then 1 else 0
  }

  lemma {:induction false} JoinBytes(names: seq<seq<byte>>, c: byte)
    ensures c in Join(names) <==> (exists i | 0 <= i < |names| :: c in names[i]) || (|names| > 1 && c == BACKSLASH)
  {
    if |names| > 1 {
      JoinBytes(names[1..], c);
      assert forall i | 1 <= i < |names| :: names[i] == names[1..][i - 1];
      if c in Join(names[1..]) && c != BACKSLASH {
        var i :| 0 <= i < |names[1..]| && c in names[1..][i];
        assert c in names[i + 1];
      }
    }
  }

  lemma NarrowNames(s: seq<byte>, nullable: bool, names: seq<seq<byte>>)
    requires AdvertisedAs(s, nullable, names) && DELETE !in s
    ensures Valid(s) && !Rooted(s)
  {
    JoinBytes(names, DELETE);
    forall i | 0 <= i < |names| ensures IsName(names[i]) {
      assert IsAdvertisedName(names[i]);
      assert DELETE !in names[i];
    }
    assert Qualifies(names, Join(names));
    assert s == Optional(nullable, QUESTION) + Optional(false, BACKSLASH) + Join(names);
    PrefixUnique(s, nullable, false, Join(names));
    StartsWithName(Join(names));
  }

  lemma ValidAdvertised(s: seq<byte>, nullable: bool, rest: seq<byte>, names: seq<seq<byte>>)
    requires s == Optional(nullable, QUESTION) + rest && Qualifies(names, rest)
    ensures AdvertisedAs(s, nullable, names) && DELETE !in s
  {
    forall i | 0 <= i < |names| ensures IsAdvertisedName(names[i]) && DELETE !in names[i] { assert IsName(names[i]); }
    JoinBytes(names, DELETE);
  }

  /** The scanner and the message agree exactly on strings without a leading backslash and without the byte 0x7f. */
  lemma MessageIff(s: seq<byte>)
    ensures Valid(s) && !Rooted(s) <==> Advertised(s) && DELETE !in s
  {
    if Valid(s) && !Rooted(s) {
      var n, r, rest :| s == Optional(n, QUESTION) + Optional(r, BACKSLASH) + rest && Qualified(rest);
      PrefixUnique(s, n, r, rest);
      StartsWithName(rest);
      var names :| Qualifies(names, rest);
      assert !r;
      assert s == Optional(n, QUESTION) + rest;
      ValidAdvertised(s, n, rest, names);
    }
    if Advertised(s) && DELETE !in s {
      var nullable, names :| AdvertisedAs(s, nullable, names);
      NarrowNames(s, nullable, names);
    }
  }

  /** "\A" is accepted though the message excludes it, and the name 0x7f refused though it allows it. */
  lemma MessageDiffers()
    ensures Valid([BACKSLASH, 65]) && !Advertised([BACKSLASH, 65])
    ensures !Valid([DELETE]) && Advertised([DELETE])
  {
    NameQualified([65]);
    assert [BACKSLASH, 65] == Optional(false, QUESTION) + Optional(true, BACKSLASH) + [65];
    MessageIff([BACKSLASH, 65]);
    assert Rooted([BACKSLASH, 65]);
    MessageIff([DELETE]);
    assert AdvertisedAs([DELETE], false, [[DELETE]]);
    assert DELETE in [DELETE] && !Rooted([DELETE]);
  }

  // ----- the scanner

  method IsValidReturnType(s: seq<byte>) returns (ok: bool)
    ensures ok <==> Valid(s)
  {
    PrefixesStripped(s);
    NotQualified([]);
    var it, end := 0, |s|;
    if it >= end {
      return false;
    }
    if s[it] == QUESTION {
      it := it + 1;
    }
    if it >= end {
      return false;
    }
    if s[it] == BACKSLASH {
      it := it + 1;
    }
    if it >= end {
      return false;
    }
    ok := ScanNames(s, it);
  }

  /** The main loop, from the start of the first name. */
  method ScanNames(s: seq<byte>, from: nat) returns (ok: bool)
    requires from < |s|
    ensures ok <==> Qualified(s[from..])
  {
    var it, end := from, |s|;
    while true
      invariant from <= it < end
      invariant Qualified(s[from..]) <==> Qualified(s[it..])
      decreases end - it
    {
      var c := s[it];
      if !IsFirst(c) {
        NotQualified(s[it..]);
        return false;
      }
      ghost var start := it;
      it, c := ScanName(s, it);
      if it < end {
        NameEnds(s, start, it);
        if c != BACKSLASH {
          return false;
        }
      }
      if c == BACKSLASH {
        if it + 1 == end {  // "\A\" is invalid
          assert s[it + 1..] == [];
          NotQualified([]);
          return false;
        }
        it := it + 1;
        continue;
      }
      assert s[start..] == s[start..it];
      NameQualified(s[start..it]);
      return true;
    }
  }

  /** The inner loop: past the name that starts at `from`, with the last byte read. */
  method ScanName(s: seq<byte>, from: nat) returns (it: nat, c: byte)
    requires from < |s| && IsFirst(s[from])
    ensures from < it <= |s| && IsName(s[from..it])
    ensures if it < |s| then c == s[it] && !IsRest(c) else IsRest(c)
  {
    c := s[from];
    it := from + 1;
    while it < |s|
      invariant from < it <= |s| && IsName(s[from..it]) && IsRest(c)
    {
      c := s[it];
      assert s[from..it + 1] == s[from..it] + [c];
      if !IsRest(c) {
        return;
      }
      it := it + 1;
    }
  }

  lemma NameEnds(s: seq<byte>, start: nat, it: nat)
    requires start < it < |s| && IsName(s[start..it]) && !IsRest(s[it])
    ensures Qualified(s[start..]) <==> s[it] == BACKSLASH && Qualified(s[it + 1..])
  {
    assert s[start..][..it - start] == s[start..it];
    assert s[start..][it - start + 1..] == s[it + 1..];
    AfterName(s[start..], it - start);
  }
}
