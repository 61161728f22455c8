/** String operations with the meaning of the JavaScript string methods the
    dashboards use. A character is a Unicode scalar value, where JavaScript
    indexes UTF-16 code units; case mapping covers the ASCII letters only. */
module Text {

  predicate IsUpper(c: char) {
    'A' <= c <= 'Z'
  }

  const UpperLetters: string := "ABCDEFGHIJKLMNOPQRSTUVWXYZ"
  const LowerLetters: string := "abcdefghijklmnopqrstuvwxyz"

  /** `toLowerCase` on one character, restricted to ASCII letters: the
      upper-case letter at some place of the alphabet becomes the lower-case
      letter at the same place. */
  function LowerChar(c: char): (r: char)
    ensures !IsUpper(r)
    ensures !IsUpper(c) ==> r == c
    ensures IsUpper(c) ==> r != c
    ensures forall k :: 0 <= k < |UpperLetters| && c == UpperLetters[k] ==> r == LowerLetters[k]
  {
    if IsUpper(c) then (c as int + 32) as char else c
  }

  /** `toLowerCase` on a string: every character lowered, nothing else changed. */
  function Lower(s: string): (r: string)
    ensures |r| == |s|
    ensures forall i :: 0 <= i < |s| ==> r[i] == LowerChar(s[i])
    ensures forall i :: 0 <= i < |r| ==> !IsUpper(r[i])
  {
    seq(|s|, i requires 0 <= i < |s| => LowerChar(s[i]))
  }

  /** The alphabet in upper case lowers to the alphabet in lower case. */
  lemma LowerAlphabet()
    ensures Lower(UpperLetters) == LowerLetters
  {
  }

  /** Lowering an already lowered string changes nothing. */
  lemma LowerIdempotent(s: string)
    ensures Lower(Lower(s)) == Lower(s)
  {
  }

  /** `needle` sits in `hay` starting at index `i`. */
  predicate OccursAt(hay: string, needle: string, i: int)
  {
    0 <= i && i + |needle| <= |hay| && hay[i..i + |needle|] == needle
  }

  lemma OccursAtTail(hay: string, needle: string, i: int)
    requires |hay| > 0 && 0 <= i
    ensures OccursAt(hay[1..], needle, i) <==> OccursAt(hay, needle, i + 1)
  {
  }

  /** `hay.includes(needle)`: the needle occurs somewhere in the hay; the
      empty needle occurs in every string. */
  function Includes(hay: string, needle: string): (r: bool)
    ensures r <==> exists i :: OccursAt(hay, needle, i)
    decreases |hay|
  {
    if |needle| <= |hay| && hay[..|needle|] == needle then
      assert OccursAt(hay, needle, 0);
      true
    else if |hay| == 0 then
      false
    else
      var r := Includes(hay[1..], needle);
      assert r <==> exists i :: OccursAt(hay, needle, i) by {
        if r {
          var i :| OccursAt(hay[1..], needle, i);
          OccursAtTail(hay, needle, i);
        } else {
          forall i | OccursAt(hay, needle, i)
            ensures false
          {
            assert i != 0;
            OccursAtTail(hay, needle, i - 1);
          }
        }
      }
      r
  }

  /** `s.split(' ')`: the maximal space-free pieces between single spaces;
      consecutive, leading or trailing spaces give empty pieces. */
  function Split(s: string): (r: seq<string>)
    ensures |r| >= 1
    ensures forall k :: 0 <= k < |r| ==> ' ' !in r[k]
    decreases |s|
  {
    if |s| == 0 then [""]
    else
      var rest := Split(s[1..]);
      if s[0] == ' ' then [""] + rest
      else
        assert forall k :: 1 <= k < |rest| ==> ' ' !in rest[k];
        [[s[0]] + rest[0]] + rest[1..]
  }

  /** `ws.join(' ')`. */
  function Join(ws: seq<string>): string
  {
    if |ws| == 0 then ""
    else if |ws| == 1 then ws[0]
    else ws[0] + " " + Join(ws[1..])
  }

  /** Splitting at spaces loses nothing: joining the pieces back gives the input. */
  lemma {:induction false} JoinSplit(s: string)
    ensures Join(Split(s)) == s
    decreases |s|
  {
    if |s| > 0 {
      var rest := Split(s[1..]);
      JoinSplit(s[1..]);
      assert s == [s[0]] + s[1..];
      if s[0] == ' ' {
        assert Split(s) == [""] + rest;
        assert ([""] + rest)[1..] == rest;
      } else {
        var ws := [[s[0]] + rest[0]] + rest[1..];
        assert Split(s) == ws;
        if |rest| > 1 {
          assert ws[1..] == rest[1..];
          assert Join(rest) == rest[0] + " " + Join(rest[1..]);
        }
      }
    }
  }

  /** `w[0]` joined into a string: the first character, and nothing for the
      empty word (JavaScript joins `undefined` as the empty string). */
  function InitialOf(w: string): string
  {
    if |w| == 0 then "" else [w[0]]
  }

  function Heads(ws: seq<string>): string
  {
    if |ws| == 0 then "" else InitialOf(ws[0]) + Heads(ws[1..])
  }

  /** `name.split(' ').map(n => n[0]).join('')`: exactly the characters of the
      name that start a word, so an empty piece (from a doubled, leading or
      trailing space) contributes nothing. */
  function Initials(name: string): (r: string)
    ensures r == WordStarts(name, true)
    ensures |r| <= |name| && ' ' !in r
  {
    HeadsOfSplit(name);
    Heads(Split(name))
  }

  /** Reference definition: the characters of `s` that start a word, that is,
      are not spaces and follow a space or (when `atStart`) the beginning. */
  function WordStarts(s: string, atStart: bool): (r: string)
    ensures |r| <= |s|
    ensures ' ' !in r
  {
    if |s| == 0 then ""
    else (if s[0] != ' ' && atStart then [s[0]] else "") + WordStarts(s[1..], s[0] == ' ')
  }

  lemma {:induction false} HeadsOfSplit(s: string)
    ensures Heads(Split(s)) == WordStarts(s, true)
    ensures Heads(Split(s)[1..]) == WordStarts(s, false)
    decreases |s|
  {
    if |s| > 0 {
      var rest := Split(s[1..]);
      HeadsOfSplit(s[1..]);
      if s[0] == ' ' {
        assert Split(s) == [""] + rest;
        assert ([""] + rest)[1..] == rest;
      } else {
        var ws := [[s[0]] + rest[0]] + rest[1..];
        assert Split(s) == ws;
        assert ws[1..] == rest[1..];
      }
    }
  }

  /** Decimal rendering of a natural number, as `String(n)`. */
  function NatToString(n: nat): (r: string)
    ensures |r| >= 1
    ensures forall i :: 0 <= i < |r| ==> '0' <= r[i] <= '9'
  {
    if n < 10 then ['0' + n as char]
    else NatToString(n / 10) + ['0' + (n % 10) as char]
  }
}
