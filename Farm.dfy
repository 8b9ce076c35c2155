/** The ordering `printFarm` puts the farm's entries in: by `order` ascending,
    and entries of equal `order` by their label compared without regard to case.
    Labels are compared character by character; lowercasing is that of ASCII. */
module Farm {

  /** What the sort reads of a student, a cow or a grass: its `label` (here `text`) and its fixed `order`. */
  datatype Entry = Entry(text: string, order: int)

  predicate IsUpper(c: char)
  {
    'A' <= c <= 'Z'
  }

  function LowerChar(c: char): char
  {
    if IsUpper(c) then (c as int + 32) as char else c
  }

  /** `lowercased()`, restricted to ASCII letters. */
  function Lower(s: string): (r: string)
    ensures |r| == |s|
    ensures forall i :: 0 <= i < |s| ==> r[i] == LowerChar(s[i])
    ensures forall i :: 0 <= i < |r| ==> !IsUpper(r[i])
  {
    if s == [] then [] else [LowerChar(s[0])] + Lower(s[1..])
  }

  /** String `<`: lexicographic, a proper prefix before its extensions. */
  predicate StringLess(a: string, b: string)
    ensures StringLess(a, b) ==> a != b
    ensures |a| < |b| && a == b[..|a|] ==> StringLess(a, b)
  {
    if a == [] then b != []
    else if b == [] then false
    else a[0] < b[0] || (a[0] == b[0] && StringLess(a[1..], b[1..]))
  }

  lemma {:induction false} StringLessAsymmetric(a: string, b: string)
    requires StringLess(a, b)
    ensures !StringLess(b, a)
  {
    if a != [] && a[0] == b[0] {
      StringLessAsymmetric(a[1..], b[1..]);
    }
  }

  lemma {:induction false} StringLessTransitive(a: string, b: string, c: string)
    requires StringLess(a, b) && StringLess(b, c)
    ensures StringLess(a, c)
  {
    if a != [] && a[0] == b[0] && b[0] == c[0] {
      StringLessTransitive(a[1..], b[1..], c[1..]);
    }
  }

  /** Any two different strings are ordered one way or the other. */
  lemma {:induction false} StringLessTotal(a: string, b: string)
    requires a != b
    ensures StringLess(a, b) || StringLess(b, a)
  {
    if a != [] && b != [] && a[0] == b[0] {
      assert a == [a[0]] + a[1..] && b == [b[0]] + b[1..];
      StringLessTotal(a[1..], b[1..]);
    }
  }

  /** "Not after" is transitive: the order the sort establishes chains. */
  lemma {:induction false} StringNotLessTransitive(a: string, b: string, c: string)
    requires !StringLess(b, a) && !StringLess(c, b)
    ensures !StringLess(c, a)
  {
    if a != [] {
      assert b != [] && c != [];
      if a[0] == b[0] && b[0] == c[0] {
        StringNotLessTransitive(a[1..], b[1..], c[1..]);
      }
    }
  }

  /** The comparator handed to `sort(by:)`: true when `a` comes before `b`. */
  predicate Before(a: Entry, b: Entry)
  {
    if a.order == b.order then StringLess(Lower(a.text), Lower(b.text))
    else a.order < b.order
  }

  lemma BeforeIrreflexive(a: Entry)
    ensures !Before(a, a)
  {
  }

  lemma BeforeAsymmetric(a: Entry, b: Entry)
    requires Before(a, b)
    ensures !Before(b, a)
  {
    if a.order == b.order {
      StringLessAsymmetric(Lower(a.text), Lower(b.text));
    }
  }

  lemma BeforeTransitive(a: Entry, b: Entry, c: Entry)
    requires Before(a, b) && Before(b, c)
    ensures Before(a, c)
  {
    if a.order == b.order == c.order {
      StringLessTransitive(Lower(a.text), Lower(b.text), Lower(c.text));
    }
  }

  /** Two entries are tied exactly when they have the same order and the
      same label up to case. */
  lemma BeforeTies(a: Entry, b: Entry)
    ensures !Before(a, b) && !Before(b, a) <==>
      a.order == b.order && Lower(a.text) == Lower(b.text)
  {
    if a.order == b.order {
      if Lower(a.text) != Lower(b.text) {
        StringLessTotal(Lower(a.text), Lower(b.text));
      }
    }
  }

  lemma NotBeforeTransitive(a: Entry, b: Entry, c: Entry)
    requires !Before(b, a) && !Before(c, b)
    ensures !Before(c, a)
  {
    if a.order == b.order == c.order {
      StringNotLessTransitive(Lower(a.text), Lower(b.text), Lower(c.text));
    }
  }

  /** No entry comes before one placed ahead of it. */
  ghost predicate Sorted(s: seq<Entry>)
  {
    forall i, j :: 0 <= i < j < |s| ==> !Before(s[j], s[i])
  }

  /** A sorted list is ordered by `order` ascending and, within one `order`,
      by lowercased label ascending. */
  lemma SortedByKeys(s: seq<Entry>)
    requires Sorted(s)
    ensures forall i, j :: 0 <= i < j < |s| ==> s[i].order <= s[j].order
    ensures forall i, j :: 0 <= i < j < |s| && s[i].order == s[j].order ==>
      !StringLess(Lower(s[j].text), Lower(s[i].text))
  {
  }

  /** The sort step of `printFarm`: sorts the array in place by `Before`. */
  method SortFarm(a: array<Entry>)
    modifies a
    ensures Sorted(a[..])
    ensures multiset(a[..]) == multiset(old(a[..]))
  {
    var i := 0;
    while i < a.Length
      invariant 0 <= i <= a.Length
      invariant forall k, l :: 0 <= k < l < i ==> !Before(a[l], a[k])
      invariant multiset(a[..]) == multiset(old(a[..]))
    {
      var j := i;
      while j > 0 && Before(a[j], a[j - 1])
        invariant 0 <= j <= i
        invariant forall k, l :: 0 <= k < l <= i && k != j && l != j ==> !Before(a[l], a[k])
        invariant forall l :: j < l <= i ==> !Before(a[l], a[j])
        invariant multiset(a[..]) == multiset(old(a[..]))
      {
        BeforeAsymmetric(a[j], a[j - 1]);
        a[j - 1], a[j] := a[j], a[j - 1];
        j := j - 1;
      }
      forall k, l | 0 <= k < l <= i
        ensures !Before(a[l], a[k])
      {
        if l == j && k < j - 1 {
          NotBeforeTransitive(a[k], a[j - 1], a[j]);
        }
      }
      i := i + 1;
    }
  }
}
