/**
  Python's `sep.join(parts)` and `s.split(c)`, and the facts about them the
  rest of the model leans on: joining strings that do not contain the
  separator can be undone by splitting, and `n` parts carry `n - 1` separators.
 */
module Text {
  import opened Values

  /** `sep.join(parts)` over strings. */
  function Join(sep: string, parts: seq<string>): string
  {
    if |parts| == 0 then ""
    else if |parts| == 1 then parts[0]
    else parts[0] + sep + Join(sep, parts[1..])
  }

  /** `s.split(c)`: the pieces between occurrences of `c`; never empty. */
  function Split(s: string, c: char): (parts: seq<string>)
    ensures |parts| >= 1
  {
    if |s| == 0 then [""]
    else
      var rest := Split(s[1..], c);
      if s[0] == c then [""] + rest else [[s[0]] + rest[0]] + rest[1..]
  }

  /** `c * n` */
  function Repeat(c: char, n: nat): (r: string)
    ensures |r| == n
    ensures forall i :: 0 <= i < n ==> r[i] == c
  {
    if n == 0 then "" else [c] + Repeat(c, n - 1)
  }

  function TotalLength(parts: seq<string>): nat
  {
    if |parts| == 0 then 0 else |parts[0]| + TotalLength(parts[1..])
  }

  predicate Free(parts: seq<string>, c: char)
  {
    forall i :: 0 <= i < |parts| ==> c !in parts[i]
  }

  /** A string without the separator splits into itself. */
  lemma {:induction false} SplitWithout(s: string, c: char)
    requires c !in s
    ensures Split(s, c) == [s]
  {
    if |s| > 0 {
      assert s[1..] + [] == s[1..];
      SplitWithout(s[1..], c);
      assert [s[0]] + s[1..] == s;
    }
  }

  /** Splitting at the first separator: the text before it is the first piece. */
  lemma {:induction false} SplitAt(a: string, b: string, c: char)
    requires c !in a
    ensures Split(a + [c] + b, c) == [a] + Split(b, c)
  {
    if |a| == 0 {
      assert a + [c] + b == [c] + b;
      assert ([c] + b)[1..] == b;
    } else {
      var s := a + [c] + b;
      assert s[0] == a[0];
      assert s[1..] == a[1..] + [c] + b;
      SplitAt(a[1..], b, c);
      assert [a[0]] + a[1..] == a;
    }
  }

  /** Joining separator-free strings with a one-character separator is undone by splitting. */
  lemma {:induction false} SplitJoin(parts: seq<string>, c: char)
    requires |parts| >= 1
    requires Free(parts, c)
    ensures Split(Join([c], parts), c) == parts
  {
    if |parts| == 1 {
      SplitWithout(parts[0], c);
    } else {
      assert Free(parts[1..], c) by {
        forall i | 0 <= i < |parts| - 1 ensures c !in parts[1..][i] {
          assert parts[1..][i] == parts[i + 1];
        }
      }
      SplitJoin(parts[1..], c);
      assert c !in parts[0];
      SplitAt(parts[0], Join([c], parts[1..]), c);
      assert [parts[0]] + parts[1..] == parts;
    }
  }

  /** `n` joined parts contain `n - 1` separators and nothing else besides the parts. */
  lemma {:induction false} JoinLength(sep: string, parts: seq<string>)
    requires |parts| >= 1
    ensures |Join(sep, parts)| == TotalLength(parts) + (|parts| - 1) * |sep|
  {
    if |parts| > 1 {
      JoinLength(sep, parts[1..]);
    } else {
      assert TotalLength(parts[1..]) == 0;
    }
  }

  /** The joined text begins with the first part. */
  lemma JoinStartsWithFirst(sep: string, parts: seq<string>)
    requires |parts| >= 1
    ensures parts[0] <= Join(sep, parts)
  {
  }

  /** Python's `sep.join(values)` over arbitrary values: the first non-string raises TypeError. */
  function JoinStrings(sep: string, values: seq<Value>): (r: Result<string>)
    ensures r.Ok? <==> forall i :: 0 <= i < |values| ==> values[i].Str?
    ensures r.Ok? ==> r.value == Join(sep, Texts(values))
    ensures r.Raised? ==> exists i :: 0 <= i < |values| && !values[i].Str?
                            && r.error == JoinItem(i, TypeName(values[i]))
                            && forall j :: 0 <= j < i ==> values[j].Str?
  {
    var bad := FirstNonString(values);
    if bad == |values| then Ok(Join(sep, Texts(values)))
    else Raised(JoinItem(bad, TypeName(values[bad])))
  }

  /** Index of the first value that is not a string, or `|values|` when all are. */
  function FirstNonString(values: seq<Value>): (i: nat)
    ensures i <= |values|
    ensures forall j :: 0 <= j < i ==> values[j].Str?
    ensures i < |values| ==> !values[i].Str?
  {
    if |values| == 0 then 0
    else if !values[0].Str? then 0
    else 1 + FirstNonString(values[1..])
  }

  function Texts(values: seq<Value>): (r: seq<string>)
    requires forall i :: 0 <= i < |values| ==> values[i].Str?
    ensures |r| == |values|
    ensures forall i :: 0 <= i < |values| ==> r[i] == values[i].s
  {
    if |values| == 0 then [] else [values[0].s] + Texts(values[1..])
  }
}
