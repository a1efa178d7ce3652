// Joining texts and concatenating parts, as several places in watchd do.
module Sequences {

  function Concat<T>(parts: seq<seq<T>>): seq<T> {
    if parts == [] then [] else Concat(parts[..|parts| - 1]) + parts[|parts| - 1]
  }

  lemma ConcatNone<T>()
    ensures Concat<T>([]) == []
  {
  }

  lemma ConcatOneMore<T>(parts: seq<seq<T>>, part: seq<T>)
    ensures Concat(parts + [part]) == Concat(parts) + part
  {
    assert (parts + [part])[..|parts|] == parts;
  }

  lemma {:induction false} ConcatBoth<T>(a: seq<seq<T>>, b: seq<seq<T>>)
    ensures Concat(a + b) == Concat(a) + Concat(b)
  {
    if b == [] {
      assert a + b == a;
    } else {
      var n := |b| - 1;
      ConcatBoth(a, b[..n]);
      assert (a + b)[..|a + b| - 1] == a + b[..n];
    }
  }

  // A part starts where those before it end.
  lemma {:induction false} ConcatAt<T>(parts: seq<seq<T>>, k: nat)
    requires k < |parts|
    ensures Concat(parts[..k + 1]) <= Concat(parts)
    ensures Concat(parts[..k + 1]) == Concat(parts[..k]) + parts[k]
  {
    assert parts[..k + 1][..k] == parts[..k];
    if k + 1 == |parts| {
      assert parts[..k + 1] == parts;
    } else {
      var head := parts[..|parts| - 1];
      ConcatAt(head, k);
      assert head[..k + 1] == parts[..k + 1];
    }
  }

  // strings.Join and strings.Split with a one-character separator.

  function Joined(fields: seq<string>, sep: char): string {
    if fields == [] then ""
    else if |fields| == 1 then fields[0]
    else fields[0] + [sep] + Joined(fields[1..], sep)
  }

  function Split(s: string, sep: char): (r: seq<string>)
    ensures |r| >= 1
  {
    if s == [] then [""]
    else
      var rest := Split(s[1..], sep);
      if s[0] == sep then [""] + rest else [[s[0]] + rest[0]] + rest[1..]
  }

  lemma {:induction false} SplitField(field: string, rest: string, sep: char)
    requires sep !in field
    ensures Split(field + [sep] + rest, sep) == [field] + Split(rest, sep)
  {
    var s := field + [sep] + rest;
    if field == [] {
      assert s[1..] == rest;
    } else {
      SplitField(field[1..], rest, sep);
      assert s[1..] == field[1..] + [sep] + rest;
      assert [field[0]] + field[1..] == field;
    }
  }

  lemma {:induction false} SplitPlain(field: string, sep: char)
    requires sep !in field
    ensures Split(field, sep) == [field]
  {
    if field != [] {
      SplitPlain(field[1..], sep);
      assert [field[0]] + field[1..] == field;
    }
  }

  // Splitting undoes joining, for fields without the separator.
  lemma {:induction false} SplitJoined(fields: seq<string>, sep: char)
    requires fields != [] && forall i :: 0 <= i < |fields| ==> sep !in fields[i]
    ensures Split(Joined(fields, sep), sep) == fields
  {
    if |fields| == 1 {
      SplitPlain(fields[0], sep);
    } else {
      SplitJoined(fields[1..], sep);
      SplitField(fields[0], Joined(fields[1..], sep), sep);
      assert [fields[0]] + fields[1..] == fields;
    }
  }
}
