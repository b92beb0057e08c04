/** The Python string operations the views use to turn user input into
    record-type names, lookup keys and the search description: `lower`,
    `replace` and `join`, and a `split` that stands for the `/` fields
    `strptime` reads. Lower-casing covers the ASCII letters only. */
module Text {

  predicate IsUpper(c: char) { 'A' <= c <= 'Z' }

  predicate IsLowerLetter(c: char) { 'a' <= c <= 'z' }

  function LowerChar(c: char): (r: char)
    ensures !IsUpper(r)
    ensures !IsUpper(c) ==> r == c
  {
    if IsUpper(c) then (c as int + 32) as char else c
  }

  /** A string with no upper-case letter, which `Lower` leaves as it is. */
  predicate IsLowered(s: string) {
    forall i :: 0 <= i < |s| ==> !IsUpper(s[i])
  }

  /** `s.lower()`: every character lower-cased in place. */
  function Lower(s: string): (r: string)
    ensures |r| == |s|
    ensures forall i :: 0 <= i < |s| ==> r[i] == LowerChar(s[i])
    ensures IsLowered(r)
  {
    if s == [] then [] else [LowerChar(s[0])] + Lower(s[1..])
  }

  /** `s.replace(ch, '')`: the same characters in the same order, less every `ch`. */
  function RemoveChar(s: string, ch: char): (r: string)
    ensures multiset(r) == multiset(s)[ch := 0]
    ensures ch !in r
  {
    if s == [] then []
    else
      var rest := RemoveChar(s[1..], ch);
      assert s == [s[0]] + s[1..];
      (if s[0] == ch then [] else [s[0]]) + rest
  }

  /** `s.replace(a, b)` for single characters: each `a` becomes `b`, in place. */
  function ReplaceChar(s: string, a: char, b: char): (r: string)
    ensures |r| == |s|
    ensures forall i :: 0 <= i < |s| ==> r[i] == (if s[i] == a then b else s[i])
  {
    if s == [] then [] else [if s[0] == a then b else s[0]] + ReplaceChar(s[1..], a, b)
  }

  /** `sep.join(parts)`: the parts in order, one separator between each two. */
  function Join(parts: seq<string>, sep: char): (r: string)
    ensures parts != [] ==> parts[0] <= r
  {
    if parts == [] then []
    else if |parts| == 1 then parts[0]
    else parts[0] + [sep] + Join(parts[1..], sep)
  }

  /** The pieces between separators, as `strptime` reads the `/` fields of a
      date: one more piece than there are separators. */
  function Split(s: string, sep: char): (r: seq<string>)
    ensures |r| == multiset(s)[sep] + 1
    ensures forall i :: 0 <= i < |r| ==> sep !in r[i]
  {
    if s == [] then [[]]
    else
      var rest := Split(s[1..], sep);
      assert s == [s[0]] + s[1..];
      if s[0] == sep then [[]] + rest
      else [[s[0]] + rest[0]] + rest[1..]
  }

  lemma LowerAppend(a: string, b: string)
    ensures Lower(a + b) == Lower(a) + Lower(b)
  {
    var whole := Lower(a + b);
    forall i | 0 <= i < |whole|
      ensures whole[i] == (Lower(a) + Lower(b))[i]
    {
      assert whole[i] == LowerChar((a + b)[i]);
      if i < |a| {
        assert (a + b)[i] == a[i];
        assert (Lower(a) + Lower(b))[i] == Lower(a)[i] == LowerChar(a[i]);
      } else {
        assert (a + b)[i] == b[i - |a|];
        assert (Lower(a) + Lower(b))[i] == Lower(b)[i - |a|] == LowerChar(b[i - |a|]);
      }
    }
  }

  /** Lower-casing commutes with removing a character that is not a letter. */
  lemma {:induction false} LowerRemoveCommute(s: string, ch: char)
    requires !IsUpper(ch) && !IsLowerLetter(ch)
    ensures Lower(RemoveChar(s, ch)) == RemoveChar(Lower(s), ch)
  {
    if s != [] {
      LowerRemoveCommute(s[1..], ch);
      var head := if s[0] == ch then [] else [s[0]];
      LowerAppend(head, RemoveChar(s[1..], ch));
      assert Lower(s)[1..] == Lower(s[1..]);
    }
  }

  /** Turning `a` into `b` and then dropping every `b` is the same as dropping both. */
  lemma {:induction false} ReplaceThenRemove(s: string, a: char, b: char)
    ensures RemoveChar(ReplaceChar(s, a, b), b) == RemoveChar(RemoveChar(s, a), b)
  {
    if s != [] {
      ReplaceThenRemove(s[1..], a, b);
      assert ReplaceChar(s, a, b)[1..] == ReplaceChar(s[1..], a, b);
      if s[0] == a {
        assert RemoveChar(s, a) == RemoveChar(s[1..], a);
      } else {
        assert RemoveChar(s, a) == [s[0]] + RemoveChar(s[1..], a);
        assert ([s[0]] + RemoveChar(s[1..], a))[1..] == RemoveChar(s[1..], a);
      }
    }
  }

  /** Lower-casing neither adds nor removes a character that is not a letter. */
  lemma LowerKeepsNonLetter(s: string, ch: char)
    requires !IsUpper(ch) && !IsLowerLetter(ch)
    ensures ch in Lower(s) <==> ch in s
  {
    if ch in s {
      var i :| 0 <= i < |s| && s[i] == ch;
      assert Lower(s)[i] == ch;
    }
    if ch in Lower(s) {
      var i :| 0 <= i < |s| && Lower(s)[i] == ch;
      assert s[i] == ch;
    }
  }

  /** `replace(ch, '')` keeps the order of what it keeps: it works piece by
      piece, and `RemoveCharOne` says what happens to a single character. */
  lemma {:induction false} RemoveCharAppend(a: string, b: string, ch: char)
    ensures RemoveChar(a + b, ch) == RemoveChar(a, ch) + RemoveChar(b, ch)
  {
    if a == [] {
      assert a + b == b;
    } else {
      RemoveCharAppend(a[1..], b, ch);
      RemoveCharFirst(a, b, ch);
      RemoveCharUnfold(a, ch);
      Regroup(RemoveChar(a + b, ch), RemoveChar(a, ch), if a[0] == ch then [] else [a[0]],
              RemoveChar(a[1..], ch), RemoveChar(b, ch), RemoveChar(a[1..] + b, ch));
    }
  }

  /** What `RemoveChar` does with the first character of `a + b`. */
  lemma RemoveCharFirst(a: string, b: string, ch: char)
    requires a != []
    ensures RemoveChar(a + b, ch) == (if a[0] == ch then [] else [a[0]]) + RemoveChar(a[1..] + b, ch)
  {
    var joined := a + b;
    assert joined != [] && joined[0] == a[0] && joined[1..] == a[1..] + b;
  }

  lemma RemoveCharUnfold(s: string, ch: char)
    requires s != []
    ensures RemoveChar(s, ch) == (if s[0] == ch then [] else [s[0]]) + RemoveChar(s[1..], ch)
  {
  }

  lemma Regroup<T>(whole: seq<T>, left: seq<T>, head: seq<T>, x: seq<T>, y: seq<T>, tail: seq<T>)
    requires whole == head + tail && tail == x + y && left == head + x
    ensures whole == left + y
  {
  }

  /** A single character is kept exactly when it is not `ch`. */
  lemma RemoveCharOne(x: char, ch: char)
    ensures RemoveChar([x], ch) == if x == ch then [] else [x]
  {
    assert [x][1..] == [];
  }

  /** Removing one character leaves every other one where it occurs. */
  lemma RemoveKeepsOthers(s: string, ch: char, other: char)
    requires other != ch
    ensures other in RemoveChar(s, ch) <==> other in s
  {
    assert multiset(RemoveChar(s, ch))[other] == multiset(s)[other];
  }

  /** A lowered string is its own lower-case form. */
  lemma LoweredIsFixed(s: string)
    requires IsLowered(s)
    ensures Lower(s) == s
  {
  }

  /** `Lower` leaves a string as it is exactly when it has no capital letter. */
  lemma LoweredExactlyWhenFixed(s: string)
    ensures Lower(s) == s <==> IsLowered(s)
  {
    if IsLowered(s) {
      LoweredIsFixed(s);
    }
  }

  /** A string with no separator splits into itself. */
  lemma {:induction false} SplitNoSeparator(s: string, sep: char)
    requires sep !in s
    ensures Split(s, sep) == [s]
  {
    if s != [] {
      SplitNoSeparator(s[1..], sep);
      assert [s[0]] + s[1..] == s;
    }
  }

  /** Splitting at the first separator. */
  lemma {:induction false} SplitAtFirst(a: string, b: string, sep: char)
    requires sep !in a
    ensures Split(a + [sep] + b, sep) == [a] + Split(b, sep)
  {
    if a == [] {
      assert a + [sep] + b == [sep] + b;
      assert ([sep] + b)[1..] == b;
    } else {
      SplitAtFirst(a[1..], b, sep);
      SplitAtFirstStep(a, b, sep);
    }
  }

  lemma SplitAtFirstStep(a: string, b: string, sep: char)
    requires a != [] && sep !in a
    requires Split(a[1..] + [sep] + b, sep) == [a[1..]] + Split(b, sep)
    ensures Split(a + [sep] + b, sep) == [a] + Split(b, sep)
  {
    var whole := a + [sep] + b;
    FirstOfJoin(a, [sep], b);
    HeadTail(a);
    assert a[0] != sep;
    SplitUnfold(whole, sep);
    HeadRegroup(Split(whole, sep), a[0], Split(whole[1..], sep), a[1..], Split(b, sep), a);
  }

  lemma FirstOfJoin<T>(a: seq<T>, m: seq<T>, b: seq<T>)
    requires a != []
    ensures a + m + b != [] && (a + m + b)[0] == a[0] && (a + m + b)[1..] == a[1..] + m + b
  {
  }

  lemma HeadTail<T>(s: seq<T>)
    requires s != []
    ensures [s[0]] + s[1..] == s
  {
  }

  lemma HeadRegroup<T>(whole: seq<seq<T>>, x: T, rest: seq<seq<T>>, first: seq<T>, tail: seq<seq<T>>, a: seq<T>)
    requires rest == [first] + tail
    requires whole == [[x] + rest[0]] + rest[1..]
    requires a == [x] + first
    ensures whole == [a] + tail
  {
    assert rest[1..] == tail;
  }

  /** One step of `Split`. */
  lemma SplitUnfold(s: string, sep: char)
    requires s != []
    ensures var rest := Split(s[1..], sep);
            Split(s, sep) == if s[0] == sep then [[]] + rest else [[s[0]] + rest[0]] + rest[1..]
  {
  }

  /** `split` undoes `join` when no part holds the separator. */
  lemma {:induction false} SplitJoin(parts: seq<string>, sep: char)
    requires |parts| >= 1
    requires forall i :: 0 <= i < |parts| ==> sep !in parts[i]
    ensures Split(Join(parts, sep), sep) == parts
  {
    if |parts| == 1 {
      SplitNoSeparator(parts[0], sep);
    } else {
      SplitJoin(parts[1..], sep);
      SplitAtFirst(parts[0], Join(parts[1..], sep), sep);
      assert [parts[0]] + parts[1..] == parts;
    }
  }

  /** An empty first part contributes only the separator. */
  lemma JoinEmptyFirst(rest: seq<string>, sep: char)
    requires |rest| >= 1
    ensures Join([[]] + rest, sep) == [sep] + Join(rest, sep)
  {
    assert ([[]] + rest)[1..] == rest;
  }

  /** A character put in front of the first part is put in front of the join. */
  lemma JoinExtendFirst(c: char, rest: seq<string>, sep: char)
    requires |rest| >= 1
    ensures Join([[c] + rest[0]] + rest[1..], sep) == [c] + Join(rest, sep)
  {
    var parts := [[c] + rest[0]] + rest[1..];
    if |rest| == 1 {
      assert parts == [[c] + rest[0]];
    } else {
      assert parts[1..] == rest[1..];
    }
  }

  /** `join` undoes `split`. */
  lemma {:induction false} JoinSplit(s: string, sep: char)
    ensures Join(Split(s, sep), sep) == s
  {
    if s != [] {
      JoinSplit(s[1..], sep);
      var rest := Split(s[1..], sep);
      SplitUnfold(s, sep);
      HeadTail(s);
      if s[0] == sep {
        JoinEmptyFirst(rest, sep);
      } else {
        JoinExtendFirst(s[0], rest, sep);
      }
    }
  }

  /** Joining one more part appends a separator and that part. */
  lemma {:induction false} JoinSnoc(parts: seq<string>, last: string, sep: char)
    requires |parts| >= 1
    ensures Join(parts + [last], sep) == Join(parts, sep) + [sep] + last
  {
    if |parts| > 1 {
      assert (parts + [last])[1..] == parts[1..] + [last];
      JoinSnoc(parts[1..], last, sep);
    } else {
      assert (parts + [last])[1..] == [last];
    }
  }
}
