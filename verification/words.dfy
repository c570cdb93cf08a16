/**
 * Space-separated word lists: `str_join` of tools/fnc.c, which glues the
 * positional arguments into one string, and `Split`, which cuts such a string
 * at every single space. `Split` keeps empty pieces and quote characters: it
 * is not the word splitting of a POSIX shell.
 */
module Words {

  /** The strings of `ss`, in order, separated by single spaces. */
  function Join(ss: seq<string>): string
    requires |ss| > 0
  {
    if |ss| == 1 then ss[0] else ss[0] + " " + Join(ss[1..])
  }

  /** The sum of the lengths of the strings of `ss`. */
  function TotalLength(ss: seq<string>): nat
  {
    if ss == [] then 0 else TotalLength(ss[..|ss| - 1]) + |ss[|ss| - 1]|
  }

  /** No string of `ss` contains a space. */
  predicate NoSpaces(ss: seq<string>)
  {
    forall i :: 0 <= i < |ss| ==> ' ' !in ss[i]
  }

  lemma NoSpacesAppend(a: seq<string>, b: seq<string>)
    requires NoSpaces(a) && NoSpaces(b)
    ensures NoSpaces(a + b)
  {
    forall k | 0 <= k < |a + b| ensures ' ' !in (a + b)[k] {
      if k >= |a| {
        assert (a + b)[k] == b[k - |a|];
      }
    }
  }

  /** Quoting a single word keeps it a single word. */
  lemma QuotedNoSpaces(s: string)
    requires ' ' !in s
    ensures ' ' !in "\"" + s + "\""
  {
    var q := "\"" + s + "\"";
    forall k | 0 <= k < |q| ensures q[k] != ' ' {
      if 0 < k < |q| - 1 {
        assert q[k] == s[k - 1];
      }
    }
  }

  /** The index of the first space of `s`. */
  function FirstSpace(s: string): (i: nat)
    requires ' ' in s
    ensures i < |s| && s[i] == ' '
    ensures forall k :: 0 <= k < i ==> s[k] != ' '
  {
    if s[0] == ' ' then 0 else 1 + FirstSpace(s[1..])
  }

  /** The words of `s`: the pieces between single spaces, empty pieces included. */
  function Split(s: string): (words: seq<string>)
    ensures |words| > 0
    decreases |s|
  {
    if ' ' in s then
      var i := FirstSpace(s);
      [s[..i]] + Split(s[i + 1..])
    else
      [s]
  }

  /** Joining two non-empty lists is joining each and putting one space between. */
  lemma {:induction false} JoinAppend(a: seq<string>, b: seq<string>)
    requires |a| > 0 && |b| > 0
    ensures Join(a + b) == Join(a) + " " + Join(b)
  {
    if |a| == 1 {
      assert (a + b)[1..] == b;
    } else {
      assert (a + b)[1..] == a[1..] + b;
      JoinAppend(a[1..], b);
    }
  }

  /** Joining a string in front of a non-empty list puts one space after it. */
  lemma JoinCons(w: string, ss: seq<string>)
    requires |ss| > 0
    ensures Join([w] + ss) == w + " " + Join(ss)
  {
    assert ([w] + ss)[1..] == ss;
  }

  /** Joining three non-empty lists puts one space between each two. */
  lemma JoinThree(a: seq<string>, b: seq<string>, c: seq<string>)
    requires |a| > 0 && |b| > 0 && |c| > 0
    ensures Join(a + b + c) == Join(a) + " " + Join(b) + " " + Join(c)
  {
    JoinAppend(a, b);
    JoinAppend(a + b, c);
  }

  /** The joined string has one separator fewer than it has strings. */
  lemma {:induction false} JoinLength(ss: seq<string>)
    requires |ss| > 0
    ensures |Join(ss)| == TotalLength(ss) + |ss| - 1
  {
    if |ss| > 1 {
      var init, last := ss[..|ss| - 1], ss[|ss| - 1];
      assert init + [last] == ss;
      JoinAppend(init, [last]);
      JoinLength(init);
    }
  }

  lemma {:induction false} TotalLengthOfPrefix(ss: seq<string>, i: nat)
    requires i <= |ss|
    ensures TotalLength(ss[..i]) <= TotalLength(ss)
    decreases |ss|
  {
    if i < |ss| {
      var init := ss[..|ss| - 1];
      assert init[..i] == ss[..i];
      TotalLengthOfPrefix(init, i);
    } else {
      assert ss[..i] == ss;
    }
  }

  /**
   * Splitting a joined list at single spaces gives the list back when no
   * string holds a space: nothing is merged and nothing is lost.
   */
  lemma {:induction false} SplitJoin(ss: seq<string>)
    requires |ss| > 0 && NoSpaces(ss)
    ensures Split(Join(ss)) == ss
  {
    if |ss| > 1 {
      var head, rest := ss[0], Join(ss[1..]);
      var s := head + " " + rest;
      assert s == Join(ss);
      assert s[|head|] == ' ';
      var i := FirstSpace(s);
      assert i == |head|;
      assert s[..i] == head;
      assert s[i + 1..] == rest;
      assert NoSpaces(ss[1..]) by {
        forall k | 0 <= k < |ss[1..]| ensures ' ' !in ss[1..][k] {
          assert ss[1..][k] == ss[k + 1];
        }
      }
      SplitJoin(ss[1..]);
      assert ss == [head] + ss[1..];
    } else {
      assert ' ' !in ss[0];
    }
  }

  /** Joining the words of a string gives the string back, and no word holds a space. */
  lemma {:induction false} JoinSplit(s: string)
    ensures Join(Split(s)) == s
    ensures NoSpaces(Split(s))
    decreases |s|
  {
    if ' ' in s {
      var i := FirstSpace(s);
      var rest := s[i + 1..];
      JoinSplit(rest);
      assert Split(s) == [s[..i]] + Split(rest);
      JoinCons(s[..i], Split(rest));
      assert s == s[..i] + " " + rest;
      assert ' ' !in s[..i] by {
        forall k | 0 <= k < i ensures s[..i][k] != ' ' {
          assert s[..i][k] == s[k];
        }
      }
      NoSpacesAppend([s[..i]], Split(rest));
    }
  }

  /** Every string of `ss` followed by one space: what the copy loop of `str_join` writes. */
  function Spaced(ss: seq<string>): string
  {
    if ss == [] then "" else Spaced(ss[..|ss| - 1]) + ss[|ss| - 1] + " "
  }

  /** The copy loop's text is the joined string and one trailing space, which `str_join` drops. */
  lemma {:induction false} SpacedIsJoin(ss: seq<string>)
    requires |ss| > 0
    ensures Spaced(ss) == Join(ss) + " "
    ensures |Spaced(ss)| == TotalLength(ss) + |ss|
  {
    var init, last := ss[..|ss| - 1], ss[|ss| - 1];
    if |ss| == 1 {
      assert init == [];
    } else {
      SpacedIsJoin(init);
      assert init + [last] == ss;
      JoinAppend(init, [last]);
    }
  }

  /** Taking one string more adds it, and one space, to the copy loop's text. */
  lemma PrefixStep(strs: seq<string>, i: nat)
    requires i < |strs|
    ensures TotalLength(strs[..i + 1]) == TotalLength(strs[..i]) + |strs[i]|
    ensures Spaced(strs[..i + 1]) == Spaced(strs[..i]) + strs[i] + " "
  {
    assert strs[..i + 1][..i] == strs[..i];
  }

  /** The first loop of `str_join`: one character per string more than their total length. */
  method MeasureStrings(strs: seq<string>) returns (size: nat)
    ensures size == TotalLength(strs) + |strs|
  {
    size := 0;
    var i := 0;
    while i < |strs|
      invariant 0 <= i <= |strs|
      invariant size == TotalLength(strs[..i]) + i
    {
      PrefixStep(strs, i);
      size := size + |strs[i]| + 1;
      i := i + 1;
    }
    assert strs[..|strs|] == strs;
  }

  /** One turn of the copy loop of `str_join`: the string, then a space, from `offset` on. */
  method CopyWithSpace(buffer: array<char>, offset: nat, s: string)
    requires offset + |s| < buffer.Length
    modifies buffer
    ensures buffer[..offset + |s| + 1] == old(buffer[..offset]) + s + " "
    ensures buffer[offset + |s| + 1..] == old(buffer[offset + |s| + 1..])
  {
    forall k | 0 <= k < |s| {
      buffer[offset + k] := s[k];
    }
    buffer[offset + |s|] := ' ';
  }

  /**
   * `str_join`: measures the strings, allocates a buffer one character per
   * string larger than their total length, copies each string followed by a
   * space, and ends the result where the last space was written.
   */
  method StrJoin(strs: seq<string>) returns (r: string)
    requires |strs| > 0
    ensures r == Join(strs)
    ensures |r| == TotalLength(strs) + |strs| - 1
  {
    var size := MeasureStrings(strs);
    var result := new char[size];
    var offset := 0;
    var i := 0;
    while i < |strs|
      invariant 0 <= i <= |strs|
      invariant offset == TotalLength(strs[..i]) + i <= size
      invariant result[..offset] == Spaced(strs[..i])
    {
      PrefixStep(strs, i);
      TotalLengthOfPrefix(strs, i + 1);
      CopyWithSpace(result, offset, strs[i]);
      offset := offset + |strs[i]| + 1;
      i := i + 1;
    }
    assert strs[..i] == strs;
    SpacedIsJoin(strs);
    r := result[..offset - 1];
  }
}
