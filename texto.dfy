/** The JavaScript string operations the core relies on: `split(' ')`,
    `join(' ')` and `toLowerCase()`. */
module Texto {

  /** `s.indexOf(c)` for a character that occurs in `s`. */
  function IndexOf(s: string, c: char): (i: nat)
    requires c in s
    ensures i < |s| && s[i] == c
    ensures c !in s[..i]
  {
    if s[0] == c then 0
    else
      var k := IndexOf(s[1..], c);
      assert s[..k + 1] == [s[0]] + s[1..][..k];
      k + 1
  }

  /** `s.split(' ')`: the maximal space-free pieces of `s`, in order. An
      empty string, and the gap between two adjacent spaces, give an empty
      piece. */
  function Split(s: string): (partes: seq<string>)
    ensures |partes| >= 1
    ensures forall k :: 0 <= k < |partes| ==> ' ' !in partes[k]
    ensures ' ' !in s ==> partes == [s]
    ensures ' ' in s ==> |partes| >= 2
    decreases |s|
  {
    if ' ' !in s then [s]
    else
      var i := IndexOf(s, ' ');
      [s[..i]] + Split(s[i + 1..])
  }

  /** `partes.join(' ')`; the join of no pieces is the empty string. */
  function Join(partes: seq<string>): string
  {
    if |partes| == 0 then ""
    else if |partes| == 1 then partes[0]
    else partes[0] + " " + Join(partes[1..])
  }

  /** Joining a piece in front of at least one more puts a space between
      them. */
  lemma JoinDelante(p: string, resto: seq<string>)
    requires |resto| >= 1
    ensures Join([p] + resto) == p + " " + Join(resto)
  {
    assert ([p] + resto)[1..] == resto;
  }

  /** The first space of `a + " " + b` is the one after `a` when `a` holds
      none. */
  lemma {:induction false} IndexOfTrasPalabra(a: string, b: string)
    requires ' ' !in a
    ensures ' ' in a + " " + b
    ensures IndexOf(a + " " + b, ' ') == |a|
    decreases |a|
  {
    var s := a + " " + b;
    assert s[|a|] == ' ';
    if |a| > 0 {
      assert s[0] == a[0];
      assert s[1..] == a[1..] + " " + b;
      IndexOfTrasPalabra(a[1..], b);
    }
  }

  /** Splitting a space-free word, a space and a rest gives the word, then
      the pieces of the rest. */
  lemma SplitTrasPalabra(a: string, b: string)
    requires ' ' !in a
    ensures Split(a + " " + b) == [a] + Split(b)
  {
    var s := a + " " + b;
    IndexOfTrasPalabra(a, b);
    assert s[..|a|] == a;
    assert s[|a| + 1..] == b;
  }

  /** Joining the pieces of a split gives back the string. */
  lemma {:induction false} JoinSplit(s: string)
    ensures Join(Split(s)) == s
    decreases |s|
  {
    if ' ' in s {
      var i := IndexOf(s, ' ');
      var cabeza, cola := s[..i], s[i + 1..];
      assert Split(s) == [cabeza] + Split(cola);
      JoinDelante(cabeza, Split(cola));
      JoinSplit(cola);
      assert s == cabeza + [s[i]] + cola;
    }
  }

  /** Splitting a join of space-free pieces gives back the pieces. */
  lemma {:induction false} SplitJoin(partes: seq<string>)
    requires |partes| >= 1
    requires forall k :: 0 <= k < |partes| ==> ' ' !in partes[k]
    ensures Split(Join(partes)) == partes
  {
    if |partes| > 1 {
      var cabeza, resto := partes[0], partes[1..];
      assert Join(partes) == cabeza + " " + Join(resto);
      SplitTrasPalabra(cabeza, Join(resto));
      SplitJoin(resto);
      assert partes == [cabeza] + resto;
    }
  }

  /** The first piece and the rest, joined back with one space, rebuild a
      string that contains a space. */
  lemma PrimeraPalabraYResto(s: string)
    requires ' ' in s
    ensures Split(s)[0] + " " + Join(Split(s)[1..]) == s
  {
    var partes := Split(s);
    JoinSplit(s);
    assert |partes| >= 2;
  }

  /** `c.toLowerCase()` for a character, on the ASCII letters. */
  function ToLowerChar(c: char): (r: char)
    ensures 'A' <= c <= 'Z' ==> r as int == c as int + 32
    ensures !('A' <= c <= 'Z') ==> r == c
  {
    if 'A' <= c <= 'Z' then (c as int + 32) as char else c
  }

  /** `s.toLowerCase()`, character by character. */
  function ToLowerCase(s: string): (r: string)
    ensures |r| == |s|
    ensures forall i :: 0 <= i < |s| ==> r[i] == ToLowerChar(s[i])
  {
    seq(|s|, i requires 0 <= i < |s| => ToLowerChar(s[i]))
  }

  /** `a` and `b` are the same string up to the case of their letters. */
  predicate IgualSinMayusculas(a: string, b: string)
  {
    |a| == |b| && forall i :: 0 <= i < |a| ==> ToLowerChar(a[i]) == ToLowerChar(b[i])
  }

  /** Two strings that differ only in case lower-case to the same string,
      and conversely. */
  lemma ToLowerCaseIgual(a: string, b: string)
    ensures IgualSinMayusculas(a, b) <==> ToLowerCase(a) == ToLowerCase(b)
  {
    if ToLowerCase(a) == ToLowerCase(b) {
      forall i | 0 <= i < |a|
        ensures ToLowerChar(a[i]) == ToLowerChar(b[i])
      {
        assert ToLowerCase(a)[i] == ToLowerCase(b)[i];
      }
    }
  }
}
