/** The .NET string primitives the assembly definition creator relies on:
    `string.IsNullOrWhiteSpace`, case mapping, deletion of a regex character
    class (`Regex.Replace(s, "[...]", "")`), `string.Split(' ',
    StringSplitOptions.RemoveEmptyEntries)` and `string.Join`.
    Strings are `seq<char>`; case mapping is restricted to ASCII letters. */
module Text {

  /** `char.IsWhiteSpace`: the Unicode White_Space characters. No letter or
      digit is white space; the space is. */
  predicate IsWhiteSpace(c: char): (r: bool)
    ensures r ==> !IsUpper(c) && !IsLower(c) && !('0' <= c <= '9')
    ensures c == ' ' ==> r
  {
    || c == ' '
    || ('\t' <= c <= '\r')
    || c == '\U{85}'
    || c == '\U{A0}'
    || c == '\U{1680}'
    || ('\U{2000}' <= c <= '\U{200A}')
    || c == '\U{2028}'
    || c == '\U{2029}'
    || c == '\U{202F}'
    || c == '\U{205F}'
    || c == '\U{3000}'
  }

  /** `string.IsNullOrWhiteSpace` on a non-null string: empty or only white
      space. The empty string is blank; a blank string holds no letter. */
  predicate IsBlank(s: string): (r: bool)
    ensures s == [] ==> r
    ensures r ==> forall i :: 0 <= i < |s| ==> !IsUpper(s[i]) && !IsLower(s[i])
  {
    forall i :: 0 <= i < |s| ==> IsWhiteSpace(s[i])
  }

  /** A concatenation is blank if and only if both parts are. */
  lemma BlankAppend(a: string, b: string)
    ensures IsBlank(a + b) <==> IsBlank(a) && IsBlank(b)
  {
    if IsBlank(a + b) {
      forall i | 0 <= i < |a| ensures IsWhiteSpace(a[i]) {
        assert a[i] == (a + b)[i];
      }
      forall i | 0 <= i < |b| ensures IsWhiteSpace(b[i]) {
        assert b[i] == (a + b)[|a| + i];
      }
    }
  }

  predicate IsUpper(c: char)
  {
    'A' <= c <= 'Z'
  }

  predicate IsLower(c: char)
  {
    'a' <= c <= 'z'
  }

  /** ASCII lower-casing of one character. */
  function ToLowerChar(c: char): (r: char)
    ensures !IsUpper(r)
    ensures IsUpper(c) ==> IsLower(r)
    ensures !IsUpper(c) ==> r == c
  {
    if IsUpper(c) then (c as int + 32) as char else c
  }

  /** ASCII upper-casing of one character (`char.ToUpper`). */
  function ToUpperChar(c: char): (r: char)
    ensures !IsLower(r)
    ensures IsLower(c) ==> IsUpper(r)
    ensures !IsLower(c) ==> r == c
  {
    if IsLower(c) then (c as int - 32) as char else c
  }

  /** `string.ToLower`, character by character. */
  function ToLower(s: string): (r: string)
    ensures |r| == |s|
    ensures forall i :: 0 <= i < |s| ==> r[i] == ToLowerChar(s[i])
  {
    if s == [] then [] else [ToLowerChar(s[0])] + ToLower(s[1..])
  }

  lemma {:induction false} ToLowerAppend(a: string, b: string)
    ensures ToLower(a + b) == ToLower(a) + ToLower(b)
  {
    if a != [] {
      assert (a + b)[1..] == a[1..] + b;
      ToLowerAppend(a[1..], b);
    }
  }

  /** `Regex.Replace(s, "[<bad>]", "")`: every character of the class `bad`
      deleted, the others kept in order. */
  function DeleteChars(s: string, bad: set<char>): (r: string)
    ensures |r| <= |s|
    ensures forall i :: 0 <= i < |r| ==> r[i] !in bad
  {
    if s == [] then []
    else if s[0] in bad then DeleteChars(s[1..], bad)
    else [s[0]] + DeleteChars(s[1..], bad)
  }

  /** Deletion changes the text exactly when the text holds a character of `bad`. */
  lemma {:induction false} DeleteCharsUnchanged(s: string, bad: set<char>)
    ensures DeleteChars(s, bad) == s <==> forall i :: 0 <= i < |s| ==> s[i] !in bad
  {
    if s != [] {
      DeleteCharsUnchanged(s[1..], bad);
      assert s == [s[0]] + s[1..];
      if s[0] in bad {
        assert |DeleteChars(s, bad)| < |s|;
      } else {
        assert DeleteChars(s, bad) == s <==> DeleteChars(s[1..], bad) == s[1..];
      }
    }
  }

  /** Every character outside `bad` is kept as often as it occurs. */
  lemma {:induction false} DeleteCharsCounts(s: string, bad: set<char>, c: char)
    requires c !in bad
    ensures multiset(DeleteChars(s, bad))[c] == multiset(s)[c]
  {
    if s != [] {
      DeleteCharsCounts(s[1..], bad, c);
      assert s == [s[0]] + s[1..];
    }
  }

  lemma DeleteCharsCons(c: char, s: string, bad: set<char>)
    ensures DeleteChars([c] + s, bad) == if c in bad then DeleteChars(s, bad) else [c] + DeleteChars(s, bad)
  {
    assert ([c] + s)[1..] == s;
  }

  /** Deletion works piecewise: it is determined by what it does to each character. */
  lemma {:induction false} DeleteCharsAppend(a: string, b: string, bad: set<char>)
    ensures DeleteChars(a + b, bad) == DeleteChars(a, bad) + DeleteChars(b, bad)
  {
    if a != [] {
      var tail := a[1..] + b;
      DeleteCharsAppend(a[1..], b, bad);
      assert a == [a[0]] + a[1..];
      assert a + b == [a[0]] + tail;
      DeleteCharsCons(a[0], a[1..], bad);
      DeleteCharsCons(a[0], tail, bad);
      var rest := DeleteChars(a[1..], bad);
      if a[0] !in bad {
        assert [a[0]] + (rest + DeleteChars(b, bad)) == ([a[0]] + rest) + DeleteChars(b, bad);
      }
    } else {
      assert a + b == b;
    }
  }

  /** Deleting a second time deletes nothing more. */
  lemma DeleteCharsIdempotent(s: string, bad: set<char>)
    ensures DeleteChars(DeleteChars(s, bad), bad) == DeleteChars(s, bad)
  {
  }

  /** `sub` is obtained from `s` by deleting characters (order kept). */
  predicate IsSubsequence(sub: string, s: string)
    decreases |s|
  {
    if sub == [] then true
    else if s == [] then false
    else if sub[0] == s[0] then IsSubsequence(sub[1..], s[1..])
    else IsSubsequence(sub, s[1..])
  }

  lemma {:induction false} DeleteCharsIsSubsequence(s: string, bad: set<char>)
    ensures IsSubsequence(DeleteChars(s, bad), s)
  {
    if s != [] {
      DeleteCharsIsSubsequence(s[1..], bad);
      if s[0] !in bad {
        assert ([s[0]] + DeleteChars(s[1..], bad))[1..] == DeleteChars(s[1..], bad);
      } else {
        SubsequenceOfTail(DeleteChars(s[1..], bad), s);
      }
    }
  }

  lemma {:induction false} SubsequenceOfTail(sub: string, s: string)
    requires s != []
    requires IsSubsequence(sub, s[1..])
    ensures IsSubsequence(sub, s)
    decreases |s|, 0
  {
    if sub != [] && sub[0] == s[0] {
      DropFirst(sub, s[1..]);
    }
  }

  lemma {:induction false} DropFirst(sub: string, s: string)
    requires sub != []
    requires IsSubsequence(sub, s)
    ensures IsSubsequence(sub[1..], s)
    decreases |s|, 1
  {
    if s != [] {
      if sub[0] == s[0] {
        if sub[1..] != [] {
          SubsequenceOfTail(sub[1..], s);
        }
      } else {
        DropFirst(sub, s[1..]);
        SubsequenceOfTail(sub[1..], s);
      }
    }
  }

  /** `s.Split(sep)`: the pieces between occurrences of `sep`, empty ones included. */
  function Split(s: string, sep: char): (r: seq<string>)
    ensures |r| >= 1
    ensures forall k :: 0 <= k < |r| ==> sep !in r[k]
  {
    if s == [] then [""]
    else
      var rest := Split(s[1..], sep);
      if s[0] == sep then [""] + rest
      else [[s[0]] + rest[0]] + rest[1..]
  }

  /** `StringSplitOptions.RemoveEmptyEntries`: drops the empty pieces, order kept. */
  function RemoveEmpty(ws: seq<string>): (r: seq<string>)
    ensures |r| <= |ws|
    ensures forall k :: 0 <= k < |r| ==> r[k] != "" && r[k] in ws
  {
    if ws == [] then []
    else if ws[0] == "" then RemoveEmpty(ws[1..])
    else [ws[0]] + RemoveEmpty(ws[1..])
  }

  /** `string.Join(sep, ws)`: the pieces with `sep` between each two. */
  function Join(sep: string, ws: seq<string>): string
  {
    if ws == [] then ""
    else if |ws| == 1 then ws[0]
    else ws[0] + sep + Join(sep, ws[1..])
  }

  /** Dropping empty entries works piecewise, so the pieces kept stay in order. */
  lemma {:induction false} RemoveEmptyAppend(a: seq<string>, b: seq<string>)
    ensures RemoveEmpty(a + b) == RemoveEmpty(a) + RemoveEmpty(b)
  {
    if a == [] {
      assert a + b == b;
    } else {
      var ab := a + b;
      assert ab != [] && ab[0] == a[0] && ab[1..] == a[1..] + b;
      RemoveEmptyAppend(a[1..], b);
      if a[0] == "" {
        assert RemoveEmpty(ab) == RemoveEmpty(a[1..] + b);
      } else {
        assert RemoveEmpty(ab) == [a[0]] + RemoveEmpty(a[1..] + b);
        assert RemoveEmpty(a) == [a[0]] + RemoveEmpty(a[1..]);
      }
    }
  }

  /** Every non-empty piece is kept, as often as it occurs. */
  lemma {:induction false} RemoveEmptyCounts(ws: seq<string>, w: string)
    requires w != ""
    ensures multiset(RemoveEmpty(ws))[w] == multiset(ws)[w]
  {
    if ws != [] {
      RemoveEmptyCounts(ws[1..], w);
      assert ws == [ws[0]] + ws[1..];
    }
  }

  /** `text.Split(' ', StringSplitOptions.RemoveEmptyEntries)`: every word is
      non-empty and holds no space. */
  function Words(s: string): (r: seq<string>)
    ensures forall k :: 0 <= k < |r| ==> r[k] != "" && ' ' !in r[k]
  {
    RemoveEmpty(Split(s, ' '))
  }

  /** Splitting and re-joining with the separator gives the string back. */
  lemma {:induction false} SplitJoin(s: string, sep: char)
    ensures Join([sep], Split(s, sep)) == s
  {
    if s != [] {
      var rest := Split(s[1..], sep);
      SplitJoin(s[1..], sep);
      assert Join([sep], rest) == s[1..];
      if s[0] == sep {
        assert Join([sep], [""] + rest) == "" + [sep] + Join([sep], rest);
        assert s == [s[0]] + s[1..];
      } else {
        JoinConsFirst([sep], s[0], rest);
        assert s == [s[0]] + s[1..];
      }
    }
  }

  lemma JoinConsFirst(sep: string, c: char, ws: seq<string>)
    requires ws != []
    ensures Join(sep, [[c] + ws[0]] + ws[1..]) == [c] + Join(sep, ws)
  {
    var ws' := [[c] + ws[0]] + ws[1..];
    assert ws'[1..] == ws[1..];
  }

  /** A character other than the separator joins the first piece of what follows. */
  lemma SplitCons(c: char, s: string, sep: char)
    requires c != sep
    ensures Split([c] + s, sep) == [[c] + Split(s, sep)[0]] + Split(s, sep)[1..]
  {
    assert ([c] + s)[1..] == s;
  }

  /** A piece free of the separator stays glued to the first piece of what follows. */
  lemma {:induction false} SplitPrefix(w: string, t: string, sep: char)
    requires sep !in w
    ensures Split(w + t, sep) == [w + Split(t, sep)[0]] + Split(t, sep)[1..]
  {
    var pieces := Split(t, sep);
    if w != [] {
      var tail := w[1..] + t;
      SplitPrefix(w[1..], t, sep);
      assert w + t == [w[0]] + tail;
      SplitCons(w[0], tail, sep);
      assert Split(tail, sep)[0] == w[1..] + pieces[0];
      assert [w[0]] + (w[1..] + pieces[0]) == w + pieces[0];
    } else {
      assert w + t == t;
      assert w + pieces[0] == pieces[0];
      assert pieces == [pieces[0]] + pieces[1..];
    }
  }

  /** Joining separator-free pieces and splitting again gives the pieces back. */
  lemma {:induction false} JoinSplit(ws: seq<string>, sep: char)
    requires ws != []
    requires forall k :: 0 <= k < |ws| ==> sep !in ws[k]
    ensures Split(Join([sep], ws), sep) == ws
  {
    if |ws| == 1 {
      SplitPrefix(ws[0], "", sep);
      assert ws[0] + "" == ws[0];
    } else {
      var t := Join([sep], ws[1..]);
      JoinSplit(ws[1..], sep);
      assert Join([sep], ws) == ws[0] + ([sep] + t);
      SplitPrefix(ws[0], [sep] + t, sep);
      assert ([sep] + t)[1..] == t;
      assert Split([sep] + t, sep) == [""] + ws[1..];
      assert ws[0] + "" == ws[0];
    }
  }

  lemma {:induction false} RemoveEmptyKeeps(ws: seq<string>)
    requires forall k :: 0 <= k < |ws| ==> ws[k] != ""
    ensures RemoveEmpty(ws) == ws
  {
    if ws != [] {
      RemoveEmptyKeeps(ws[1..]);
    }
  }

  /** Non-empty space-free words joined by single spaces split back into themselves. */
  lemma WordsOfJoin(ws: seq<string>)
    requires ws != []
    requires forall k :: 0 <= k < |ws| ==> ws[k] != "" && ' ' !in ws[k]
    ensures Words(Join(" ", ws)) == ws
  {
    assert " " == [' '];
    JoinSplit(ws, ' ');
    RemoveEmptyKeeps(ws);
  }

  /** A string holding a character other than white space has at least one word. */
  lemma {:induction false} WordsOfNonBlank(s: string)
    requires !IsBlank(s)
    ensures Words(s) != []
  {
    if s[0] == ' ' {
      var i :| 0 <= i < |s| && !IsWhiteSpace(s[i]);
      assert s[1..][i - 1] == s[i];
      WordsOfNonBlank(s[1..]);
    } else {
      assert Split(s, ' ')[0] != "";
    }
  }

  /** Joining non-empty space-free words neither starts nor ends with a space. */
  lemma {:induction false} JoinEnds(ws: seq<string>)
    requires ws != []
    requires forall k :: 0 <= k < |ws| ==> ws[k] != "" && ' ' !in ws[k]
    ensures Join(" ", ws) != ""
    ensures Join(" ", ws)[0] == ws[0][0]
    ensures Join(" ", ws)[|Join(" ", ws)| - 1] == ws[|ws| - 1][|ws[|ws| - 1]| - 1]
  {
    if |ws| > 1 {
      var rest := ws[1..];
      JoinEnds(rest);
      var t := Join(" ", rest);
      var j := ws[0] + " " + t;
      assert Join(" ", ws) == j;
      assert j[0] == ws[0][0];
      assert j[|j| - 1] == t[|t| - 1];
      assert rest[|rest| - 1] == ws[|ws| - 1];
    }
  }
}
