// pg_snapshot's text form, "xmin:xmax:xip,xip,..." (internal/cdc/visibility.go).
module SnapshotText {
  import opened Cdc
  import opened Sequences
  import opened Visibility

  // strconv.ParseUint(s, 10, 64)

  predicate IsDigits(s: string) {
    forall i :: 0 <= i < |s| ==> '0' <= s[i] <= '9'
  }

  function Amount(s: string): nat
    requires IsDigits(s)
  {
    if s == [] then 0 else Amount(s[..|s| - 1]) * 10 + (s[|s| - 1] as int - '0' as int)
  }

  function ParseUint(s: string): Option<uint64> {
    if s == "" || !IsDigits(s) then None
    else if Amount(s) >= TWO_64 then None
    else Some(Amount(s))
  }

  // How PostgreSQL prints a transaction ID.
  function Decimal(n: nat): (s: string)
    ensures s != "" && IsDigits(s)
  {
    var digit := [('0' as int + n % 10) as char];
    if n < 10 then digit else Decimal(n / 10) + digit
  }

  lemma {:induction false} DecimalAmount(n: nat)
    ensures Amount(Decimal(n)) == n
  {
    var s := Decimal(n);
    assert s[|s| - 1] as int == '0' as int + n % 10;
    if n >= 10 {
      DecimalAmount(n / 10);
      assert s[..|s| - 1] == Decimal(n / 10);
    } else {
      assert s[..|s| - 1] == [];
    }
  }

  lemma DecimalParses(n: uint64, sep: char)
    requires sep < '0' || sep > '9'
    ensures ParseUint(Decimal(n)) == Some(n) && sep !in Decimal(n)
  {
    DecimalAmount(n);
  }

  // The in-progress field's IDs, as text.
  function Fields(list: string): seq<string> {
    if list == "" then [] else Split(list, ',')
  }

  predicate InRange(field: string, xmin: uint64, xmax: uint64) {
    ParseUint(field).Some? && xmin <= ParseUint(field).value < xmax
  }

  // Exactly the texts parseVisibility accepts.
  predicate IsSnapshot(text: string) {
    var parts := Split(text, ':');
    && |parts| == 3 && ParseUint(parts[0]).Some? && ParseUint(parts[1]).Some?
    && ParseUint(parts[0]).value <= ParseUint(parts[1]).value
    && (forall i :: 0 <= i < |Fields(parts[2])| ==>
          InRange(Fields(parts[2])[i], ParseUint(parts[0]).value, ParseUint(parts[1]).value))
  }

  // The IDs a list of fields names.
  function Ids(fields: seq<string>): (ids: set<uint64>)
    ensures forall i :: 0 <= i < |fields| && ParseUint(fields[i]).Some? ==> ParseUint(fields[i]).value in ids
    ensures forall x :: x in ids ==> exists i :: 0 <= i < |fields| && ParseUint(fields[i]) == Some(x)
  {
    if fields == [] then {}
    else
      var n := |fields| - 1;
      assert forall i :: 0 <= i < n ==> fields[..n][i] == fields[i];
      Ids(fields[..n]) + if ParseUint(fields[n]).Some? then {ParseUint(fields[n]).value} else {}
  }

  function Parsed(text: string): (v: Option<Visibility>)
    ensures v.Some? ==> forall x :: x in v.value.inProgress ==> v.value.xmin <= x < v.value.xmax
  {
    if !IsSnapshot(text) then None
    else
      var parts := Split(text, ':');
      Some(Visibility(ParseUint(parts[0]).value, ParseUint(parts[1]).value, Ids(Fields(parts[2]))))
  }

  method ParseIds(fields: seq<string>, xmin: uint64, xmax: uint64) returns (ids: Option<set<uint64>>)
    ensures ids.Some? <==> forall i :: 0 <= i < |fields| ==> InRange(fields[i], xmin, xmax)
    ensures ids.Some? ==> ids.value == Ids(fields)
  {
    var inProgress: set<uint64> := {};
    for i := 0 to |fields|
      invariant forall j :: 0 <= j < i ==> InRange(fields[j], xmin, xmax)
      invariant inProgress == Ids(fields[..i])
    {
      assert fields[..i + 1][..i] == fields[..i];
      var xid := ParseUint(fields[i]);
      if xid.None? || xid.value < xmin || xid.value >= xmax {
        assert !InRange(fields[i], xmin, xmax);
        return None;
      }
      inProgress := inProgress + {xid.value};
    }
    assert fields[..|fields|] == fields;
    ids := Some(inProgress);
  }

  // parseVisibility accepts exactly the well-formed texts, and what it yields is
  // in range.
  method ParseVisibility(text: string) returns (v: Option<Visibility>)
    ensures v == Parsed(text)
  {
    var parts := Split(text, ':');
    if |parts| != 3 { return None; }
    var xmin := ParseUint(parts[0]);
    if xmin.None? { return None; }
    var xmax := ParseUint(parts[1]);
    if xmax.None? || xmax.value < xmin.value { return None; }
    var fields: seq<string> := [];
    if parts[2] != "" {
      fields := Split(parts[2], ',');
    }
    var inProgress := ParseIds(fields, xmin.value, xmax.value);
    if inProgress.None? { return None; }
    v := Some(Visibility(xmin.value, xmax.value, inProgress.value));
  }

  function Decimals(xs: seq<uint64>): (r: seq<string>)
    ensures |r| == |xs|
  {
    seq(|xs|, i requires 0 <= i < |xs| => Decimal(xs[i]))
  }

  // How PostgreSQL prints a snapshot.
  function Print(xmin: uint64, xmax: uint64, xs: seq<uint64>): string {
    Joined([Decimal(xmin), Decimal(xmax), Joined(Decimals(xs), ',')], ':')
  }

  lemma {:induction false} JoinedAvoids(fields: seq<string>, sep: char, c: char)
    requires c != sep && forall i :: 0 <= i < |fields| ==> c !in fields[i]
    ensures c !in Joined(fields, sep)
    ensures fields != [] && fields[0] != "" ==> Joined(fields, sep) != ""
  {
    if |fields| > 1 { JoinedAvoids(fields[1..], sep, c); }
  }

  // parseVisibility inverts the printer: every printed snapshot is accepted, exactly
  // when its range and its in-progress list are in order, and yields what was printed.
  lemma PrintedParses(xmin: uint64, xmax: uint64, xs: seq<uint64>)
    ensures var parts := Split(Print(xmin, xmax, xs), ':');
            && |parts| == 3 && ParseUint(parts[0]) == Some(xmin) && ParseUint(parts[1]) == Some(xmax)
            && Fields(parts[2]) == Decimals(xs)
            && (forall i :: 0 <= i < |xs| ==> ParseUint(Decimals(xs)[i]) == Some(xs[i]))
    ensures IsSnapshot(Print(xmin, xmax, xs)) <==> xmin <= xmax && forall i :: 0 <= i < |xs| ==> xmin <= xs[i] < xmax
  {
    hide ParseUint, Decimal;
    var list := Joined(Decimals(xs), ',');
    DecimalParses(xmin, ':');
    DecimalParses(xmax, ':');
    forall i | 0 <= i < |xs|
      ensures ParseUint(Decimals(xs)[i]) == Some(xs[i]) && ':' !in Decimals(xs)[i] && ',' !in Decimals(xs)[i]
    {
      DecimalParses(xs[i], ':');
      DecimalParses(xs[i], ',');
    }
    JoinedAvoids(Decimals(xs), ',', ':');
    var parts := [Decimal(xmin), Decimal(xmax), list];
    SplitJoined(parts, ':');
    assert Fields(list) == Decimals(xs) by {
      if xs != [] { SplitJoined(Decimals(xs), ','); }
    }
    hide Split, Joined;
    assert forall i :: 0 <= i < |xs| ==> (InRange(Decimals(xs)[i], xmin, xmax) <==> xmin <= xs[i] < xmax);
  }

  function Elements(xs: seq<uint64>): set<uint64> {
    set x | x in xs
  }

  // The printed snapshot comes back whole.
  lemma RoundTrip(xmin: uint64, xmax: uint64, xs: seq<uint64>)
    requires xmin <= xmax && forall i :: 0 <= i < |xs| ==> xmin <= xs[i] < xmax
    ensures Parsed(Print(xmin, xmax, xs)) == Some(Visibility(xmin, xmax, Elements(xs)))
  {
    PrintedParses(xmin, xmax, xs);
    hide Split, Print, ParseUint;
    var ids := Ids(Decimals(xs));
    forall x: uint64 ensures x in ids <==> x in xs {
      if x in xs {
        var i :| 0 <= i < |xs| && xs[i] == x;
        assert ParseUint(Decimals(xs)[i]) == Some(x);
      }
    }
    assert ids == Elements(xs);
  }
}
