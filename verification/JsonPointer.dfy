/** JSON Pointer text (RFC 6901, sections 3 and 4): a list of keys is escaped, joined,
    split and unescaped without loss, whatever the keys contain. */
module JsonPointer {
  import opened TextLines

  /** str.replace for a one-character pattern. */
  function ReplaceChar(s: string, c: char, with: string): string {
    if s == [] then [] else (if s[0] == c then with else [s[0]]) + ReplaceChar(s[1..], c, with)
  }

  /** str.replace for a two-character pattern: left to right, without overlaps. */
  function ReplacePair(s: string, c: char, d: char, with: char): string {
    if |s| < 2 then s
    else if s[0] == c && s[1] == d then [with] + ReplacePair(s[2..], c, d, with)
    else [s[0]] + ReplacePair(s[1..], c, d, with)
  }

  /** _pointer_part */
  function Escape(key: string): string {
    ReplaceChar(ReplaceChar(key, '~', "~0"), '/', "~1")
  }

  function Unescape(part: string): string {
    ReplacePair(ReplacePair(part, '~', '1', '/'), '~', '0', '~')
  }

  lemma {:induction false} ReplaceCharConcat(s: string, t: string, c: char, with: string)
    ensures ReplaceChar(s + t, c, with) == ReplaceChar(s, c, with) + ReplaceChar(t, c, with)
  {
    if s == [] {
      assert s + t == t;
    } else {
      assert (s + t)[1..] == s[1..] + t;
      ReplaceCharConcat(s[1..], t, c, with);
    }
  }

  /** How the escaped text of a key starts. */
  lemma EscapeStep(key: string)
    requires key != []
    ensures Escape(key) == (if key[0] == '~' then "~0" else if key[0] == '/' then "~1" else [key[0]]) + Escape(key[1..])
  {
    var head := if key[0] == '~' then "~0" else [key[0]];
    ReplaceCharConcat(head, ReplaceChar(key[1..], '~', "~0"), '/', "~1");
    assert "~0"[1..] == "0";
    assert ReplaceChar("0", '/', "~1") == "0";
    assert ReplaceChar(head, '/', "~1") == (if key[0] == '~' then "~0" else if key[0] == '/' then "~1" else [key[0]]);
  }

  /** The first pass of Unescape undoes the second pass of Escape. */
  lemma {:induction false} SlashesComeBack(key: string)
    ensures ReplacePair(Escape(key), '~', '1', '/') == ReplaceChar(key, '~', "~0")
  {
    if key != [] {
      EscapeStep(key);
      SlashesComeBack(key[1..]);
      var rest := Escape(key[1..]);
      if key[0] == '~' {
        assert Escape(key) == ['~'] + (['0'] + rest);
        assert Escape(key)[1..] == ['0'] + rest;
        PlainStep('0', rest, '~', '1', '/');
      } else if key[0] == '/' {
        assert Escape(key)[2..] == rest;
      } else {
        PlainStep(key[0], rest, '~', '1', '/');
      }
    }
  }

  lemma PlainStep(x: char, rest: string, c: char, d: char, with: char)
    requires x != c
    ensures ReplacePair([x] + rest, c, d, with) == [x] + ReplacePair(rest, c, d, with)
  {
    assert ([x] + rest)[1..] == rest;
  }

  lemma {:induction false} TildesComeBack(key: string)
    ensures ReplacePair(ReplaceChar(key, '~', "~0"), '~', '0', '~') == key
  {
    if key != [] {
      TildesComeBack(key[1..]);
      var rest := ReplaceChar(key[1..], '~', "~0");
      if key[0] == '~' {
        assert ("~0" + rest)[2..] == rest;
      } else {
        PlainStep(key[0], rest, '~', '0', '~');
      }
    }
  }

  lemma UnescapeEscape(key: string)
    ensures Unescape(Escape(key)) == key
  {
    SlashesComeBack(key);
    TildesComeBack(key);
  }

  // ---------- whole pointers ----------

  function Pointer(keys: seq<string>): string {
    if keys == [] then [] else ['/'] + Escape(keys[0]) + Pointer(keys[1..])
  }

  /** The keys apply_state_diff reads off a path. */
  function Parts(path: string): (parts: seq<string>)
    requires path != []
    ensures parts != []
  {
    var pieces := Split(path[1..], '/');
    seq(|pieces|, i requires 0 <= i < |pieces| => Unescape(pieces[i]))
  }

  lemma {:induction false} EscapedHasNoSlash(key: string)
    ensures '/' !in Escape(key)
  {
    if key != [] {
      EscapeStep(key);
      EscapedHasNoSlash(key[1..]);
    }
  }

  lemma SplitAtSlash(a: string, b: string)
    requires '/' !in a
    ensures Split(a, '/') == [a]
    ensures Split(a + ['/'] + b, '/') == [a] + Split(b, '/')
  {
    SplitPlain(a, '/');
    SplitConcat(a, b, '/');
  }

  function Escaped(keys: seq<string>): seq<string> {
    seq(|keys|, i requires 0 <= i < |keys| => Escape(keys[i]))
  }

  lemma {:induction false} SplitPointer(keys: seq<string>)
    requires keys != []
    ensures Split(Pointer(keys)[1..], '/') == Escaped(keys)
  {
    hide Escape, Split;
    var head := Escape(keys[0]);
    EscapedHasNoSlash(keys[0]);
    if |keys| == 1 {
      assert Pointer(keys)[1..] == head;
      SplitAtSlash(head, []);
    } else {
      var rest := Pointer(keys[1..]);
      assert rest == ['/'] + rest[1..];
      assert Pointer(keys)[1..] == head + ['/'] + rest[1..];
      SplitAtSlash(head, rest[1..]);
      SplitPointer(keys[1..]);
      assert Escaped(keys) == [head] + Escaped(keys[1..]);
    }
  }

  /** Escape, join, split and unescape is the identity on non-empty key lists. */
  lemma PointerRoundTrip(keys: seq<string>)
    requires keys != []
    ensures Pointer(keys) != [] && Parts(Pointer(keys)) == keys
  {
    SplitPointer(keys);
    forall i | 0 <= i < |keys| ensures Parts(Pointer(keys))[i] == keys[i] {
      UnescapeEscape(keys[i]);
    }
  }

  lemma {:induction false} PointerConcat(a: seq<string>, b: seq<string>)
    ensures Pointer(a + b) == Pointer(a) + Pointer(b)
  {
    if a == [] {
      assert a + b == b;
    } else {
      assert (a + b)[1..] == a[1..] + b;
      PointerConcat(a[1..], b);
    }
  }
}
