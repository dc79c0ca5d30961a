/** Store cursors as key paths, their string encoding (`encodeCursor` / `decodeCursor`), and the test
    the store's change callback applies to decide whether a change record concerns a recorded path. */
module Cursor {
  import opened Values

  /** The raw key path a cursor carries (`getProxyPath` returns a copy of it). */
  type Path = seq<string>

  /** The separator `encodeCursor` joins escaped keys with. */
  const Sep: char := '/'

  // ---------------------------------------------------------------- escaping one key

  /** The part of `encodeURIComponent` the cursor format depends on: '%' and the separator are
      percent-escaped, every other character is kept. */
  function EscapeChar(c: char): string
  {
    if c == '%' then "%25" else if c == Sep then "%2F" else [c]
  }

  function EscapeKey(k: string): (r: string)
    ensures Sep !in r
    ensures r == [] <==> k == []
    decreases |k|
  {
    if k == [] then [] else EscapeChar(k[0]) + EscapeKey(k[1..])
  }

  function Prepend(c: char, o: Option<string>): Option<string>
  {
    match o
    case None => None
    case Some(t) => Some([c] + t)
  }

  /** The matching part of `decodeURIComponent`: "%25" and "%2F" are decoded, any other '%'
      sequence is malformed (where the JavaScript function would throw `URIError`). */
  function UnescapeKey(s: string): Option<string>
    decreases |s|
  {
    if s == [] then Some([])
    else if s[0] == '%' then
      if |s| >= 3 && s[1] == '2' && s[2] == '5' then Prepend('%', UnescapeKey(s[3..]))
      else if |s| >= 3 && s[1] == '2' && s[2] == 'F' then Prepend(Sep, UnescapeKey(s[3..]))
      else None
    else Prepend(s[0], UnescapeKey(s[1..]))
  }

  /** Decoding an escaped key gives the key back. */
  lemma {:induction false} UnescapeEscape(k: string)
    ensures UnescapeKey(EscapeKey(k)) == Some(k)
    decreases |k|
  {
    if k != [] {
      var rest := EscapeKey(k[1..]);
      var s := EscapeKey(k);
      assert s == EscapeChar(k[0]) + rest;
      UnescapeEscape(k[1..]);
      if k[0] == '%' || k[0] == Sep {
        assert s[1..3] == EscapeChar(k[0])[1..3];
        assert s[3..] == rest;
      } else {
        assert s[0] == k[0];
        assert s[1..] == rest;
      }
      assert [k[0]] + k[1..] == k;
    }
  }

  // ---------------------------------------------------------------- split and join

  /** `String.prototype.split` on the separator: always at least one piece (the empty string
      splits into [""]). */
  function Split(s: string): (r: seq<string>)
    ensures |r| > 0
    decreases |s|
  {
    if s == [] then [[]]
    else if s[0] == Sep then [[]] + Split(s[1..])
    else
      var rest := Split(s[1..]);
      [[s[0]] + rest[0]] + rest[1..]
  }

  /** `Array.prototype.join` with the separator. */
  function Join(parts: seq<string>): string
    decreases |parts|
  {
    if |parts| == 0 then []
    else if |parts| == 1 then parts[0]
    else parts[0] + [Sep] + Join(parts[1..])
  }

  /** A separator-free prefix glues onto the first piece of what follows it. */
  lemma {:induction false} SplitGlue(a: string, t: string)
    requires Sep !in a
    ensures Split(a + t) == [a + Split(t)[0]] + Split(t)[1..]
    decreases |a|
  {
    if a == [] {
      assert a + t == t;
      assert a + Split(t)[0] == Split(t)[0];
      assert [Split(t)[0]] + Split(t)[1..] == Split(t);
    } else {
      assert (a + t)[0] == a[0];
      assert (a + t)[1..] == a[1..] + t;
      SplitGlue(a[1..], t);
      assert [a[0]] + (a[1..] + Split(t)[0]) == a + Split(t)[0];
    }
  }

  /** Splitting undoes joining when no piece contains the separator and there is at least one piece. */
  lemma {:induction false} SplitJoin(parts: seq<string>)
    requires |parts| > 0
    requires forall i :: 0 <= i < |parts| ==> Sep !in parts[i]
    ensures Split(Join(parts)) == parts
    decreases |parts|
  {
    if |parts| == 1 {
      SplitGlue(parts[0], []);
      assert parts[0] + [] == parts[0];
    } else {
      var tail := Join(parts[1..]);
      SplitJoin(parts[1..]);
      assert Split([Sep] + tail) == [[]] + Split(tail);
      assert parts[0] + [Sep] + tail == parts[0] + ([Sep] + tail);
      SplitGlue(parts[0], [Sep] + tail);
      assert parts[0] + [] == parts[0];
      assert [parts[0]] + parts[1..] == parts;
    }
  }

  // ---------------------------------------------------------------- encodeCursor / decodeCursor

  function EscapeAll(p: Path): (r: seq<string>)
    ensures |r| == |p|
    ensures forall i :: 0 <= i < |p| ==> r[i] == EscapeKey(p[i])
  {
    seq(|p|, i requires 0 <= i < |p| => EscapeKey(p[i]))
  }

  function UnescapeAll(parts: seq<string>): (r: Option<Path>)
    ensures r.Some? ==> |r.value| == |parts|
    decreases |parts|
  {
    if parts == [] then Some([])
    else match (UnescapeKey(parts[0]), UnescapeAll(parts[1..]))
      case (Some(k), Some(ks)) => Some([k] + ks)
      case _ => None
  }

  /** `encodeCursor`: escape every key and join with the separator. */
  function EncodeCursor(p: Path): string
  {
    Join(EscapeAll(p))
  }

  /** `decodeCursor`: split on the separator and unescape every piece. */
  function DecodeCursor(s: string): Option<Path>
  {
    UnescapeAll(Split(s))
  }

  lemma {:induction false} UnescapeAllEscapeAll(p: Path)
    ensures UnescapeAll(EscapeAll(p)) == Some(p)
    decreases |p|
  {
    if p != [] {
      var e := EscapeAll(p);
      assert e[1..] == EscapeAll(p[1..]);
      UnescapeEscape(p[0]);
      UnescapeAllEscapeAll(p[1..]);
      assert [p[0]] + p[1..] == p;
    }
  }

  /** Decoding an encoded non-empty path gives the path back. */
  lemma DecodeEncode(p: Path)
    requires p != []
    ensures DecodeCursor(EncodeCursor(p)) == Some(p)
  {
    SplitJoin(EscapeAll(p));
    UnescapeAllEscapeAll(p);
  }

  /** The root cursor encodes to the empty string, which decodes to the one-key path [""]:
      the round trip is lossy exactly at the root. */
  lemma DecodeEncodeRoot()
    ensures EncodeCursor([]) == EncodeCursor([""]) == []
    ensures DecodeCursor(EncodeCursor([])) == Some([""])
  {
    assert EscapeAll([""]) == [[]];
    assert Split([]) == [[]];
    var root: seq<string> := [[]];
    assert root[1..] == [];
    assert UnescapeKey(root[0]) == Some([]);
    assert UnescapeAll(root[1..]) == Some([]);
    assert [root[0]] + [] == root;
    assert UnescapeAll(root) == Some(root);
  }

  /** The encoding is injective on non-empty paths. */
  lemma EncodeInjective(p: Path, q: Path)
    requires p != [] && q != []
    requires EncodeCursor(p) == EncodeCursor(q)
    ensures p == q
  {
    DecodeEncode(p);
    DecodeEncode(q);
  }

  /** `decodeCursor(s).length`: the number of separator-delimited pieces, which is the length of
      the decoded path whenever decoding succeeds. */
  function DecodedLength(s: string): (n: nat)
    ensures n > 0
    ensures DecodeCursor(s).Some? ==> |DecodeCursor(s).value| == n
  {
    |Split(s)|
  }

  lemma DecodedLengthOfEncoding(p: Path)
    ensures DecodedLength(EncodeCursor(p)) == if p == [] then 1 else |p|
  {
    if p == [] {
      DecodeEncodeRoot();
    } else {
      DecodeEncode(p);
    }
  }

  // ---------------------------------------------------------------- change matching

  datatype ChangeKind = Insert | Update | Delete

  /** A change record reported by the store's deep observer. */
  datatype Change = Change(path: Path, kind: ChangeKind)

  /** `path.slice(0, n)`: the first `n` keys, or the whole path when it is shorter. */
  function Take(c: Path, n: nat): (r: Path)
    ensures |r| == if n <= |c| then n else |c|
    ensures r <= c
  {
    if n <= |c| then c[..n] else c
  }

  /** A change at `changed` concerns the recorded encoded path `recorded` when the changed path,
      cut to the recorded cursor's length, encodes to the same string. */
  predicate Hits(recorded: string, changed: Path)
  {
    EncodeCursor(Take(changed, DecodedLength(recorded))) == recorded
  }

  /** `changes.some(...)` in the store callback. */
  predicate Matches(recorded: string, changes: seq<Change>)
  {
    exists i :: 0 <= i < |changes| && Hits(recorded, changes[i].path)
  }

  /** For a non-empty recorded path, a change hits it exactly when the recorded path is a prefix of
      the changed path, with one exception: replacing the root (the empty change path) also hits
      the path [""], because both encode to the empty string. */
  lemma HitsIffPrefix(p: Path, c: Path)
    requires p != []
    ensures Hits(EncodeCursor(p), c) <==> (p <= c || (c == [] && p == [""]))
  {
    DecodedLengthOfEncoding(p);
    var q := Take(c, |p|);
    if Hits(EncodeCursor(p), c) {
      if q == [] {
        DecodeEncodeRoot();
        DecodeEncode(p);
        assert c == [];
      } else {
        EncodeInjective(q, p);
      }
    }
    if c == [] && p == [""] {
      DecodeEncodeRoot();
      assert q == [];
    }
    if p <= c {
      assert q == p;
    }
  }

  /** The root cursor hears only a replacement of the whole value or a change below a top-level
      key named "" (its encoding decodes to a one-key path). */
  lemma HitsRoot(c: Path)
    ensures Hits(EncodeCursor([]), c) <==> (c == [] || c[0] == "")
  {
    DecodeEncodeRoot();
    assert DecodedLength(EncodeCursor([])) == 1;
    if c != [] {
      assert Take(c, 1) == [c[0]];
      assert EscapeAll([c[0]]) == [EscapeKey(c[0])];
    }
  }

  /** A change strictly above the recorded path (its path is shorter) does not hit it, except for
      the root-versus-[""] collision. */
  lemma AboveDoesNotHit(p: Path, c: Path)
    requires p != [] && |c| < |p|
    requires !(c == [] && p == [""])
    ensures !Hits(EncodeCursor(p), c)
  {
    HitsIffPrefix(p, c);
  }

  /** A change beside the recorded path (the two differ at some shared position) does not hit it. */
  lemma BesideDoesNotHit(p: Path, c: Path, i: nat)
    requires i < |p| && i < |c| && p[i] != c[i]
    ensures !Hits(EncodeCursor(p), c)
  {
    HitsIffPrefix(p, c);
  }

  /** A change at or below the recorded path hits it. */
  lemma BelowHits(p: Path, c: Path)
    requires p != [] && p <= c
    ensures Hits(EncodeCursor(p), c)
  {
    HitsIffPrefix(p, c);
  }

  /** The store test's trace: a wire that read `friends/0/id` is not hit by the insert at
      `friends/1` but is hit by the update of `friends/0/id`. */
  lemma FriendsExample(p: Path, insert: Change, update: Change)
    requires p == ["friends", "0", "id"]
    requires insert == Change(["friends", "1"], Insert)
    requires update == Change(["friends", "0", "id"], Update)
    ensures !Matches(EncodeCursor(p), [insert])
    ensures Matches(EncodeCursor(p), [update])
  {
    BesideDoesNotHit(p, insert.path, 1);
    BelowHits(p, update.path);
    assert [update][0].path == update.path;
  }
}
