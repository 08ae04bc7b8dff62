/** Rewriting the day-of-week field of a cron expression: Sunday may be written 7, the parser wants 0. */
module CronText {

  // ---------------------------------------------------------------- splitting and joining

  /** strings.Split, for any class of separators. */
  function Split(s: string, sep: char -> bool): (r: seq<string>)
    ensures r != [] && forall t :: t in r ==> Solid(t, sep)
  {
    if s == [] then [[]]
    else
      var rest := Split(s[1..], sep);
      assert Solid(rest[0], sep);
      if sep(s[0]) then [[]] + rest else [[s[0]] + rest[0]] + rest[1..]
  }

  /** No separator inside. */
  predicate Solid(t: string, sep: char -> bool) { forall i :: 0 <= i < |t| ==> !sep(t[i]) }

  predicate AllSolid(ts: seq<string>, sep: char -> bool) { forall t :: t in ts ==> Solid(t, sep) }

  /** strings.Join */
  function Join(ts: seq<string>, glue: char): string {
    if ts == [] then [] else if |ts| == 1 then ts[0] else ts[0] + ([glue] + Join(ts[1..], glue))
  }

  lemma {:induction false} SplitHead(t: string, glue: char, rest: string, sep: char -> bool)
    requires Solid(t, sep) && sep(glue)
    ensures Split(t, sep) == [t]
    ensures Split(t + ([glue] + rest), sep) == [t] + Split(rest, sep)
  {
    if t == [] {
      assert t + ([glue] + rest) == [glue] + rest && ([glue] + rest)[1..] == rest;
    } else {
      SplitHead(t[1..], glue, rest, sep);
      assert (t + ([glue] + rest))[1..] == t[1..] + ([glue] + rest);
      assert [t[0]] + t[1..] == t;
    }
  }

  /** Splitting undoes joining. */
  lemma {:induction false} SplitOfJoin(ts: seq<string>, glue: char, sep: char -> bool)
    requires ts != [] && AllSolid(ts, sep) && sep(glue)
    ensures Split(Join(ts, glue), sep) == ts
  {
    if |ts| == 1 {
      SplitHead(ts[0], glue, [], sep);
    } else {
      SplitOfJoin(ts[1..], glue, sep);
      SplitHead(ts[0], glue, Join(ts[1..], glue), sep);
    }
  }

  /** Joining undoes splitting at a single character. */
  lemma {:induction false} JoinOfSplit(s: string, glue: char, sep: char -> bool)
    requires forall c :: sep(c) <==> c == glue
    ensures Join(Split(s, sep), glue) == s
  {
    if s != [] {
      JoinOfSplit(s[1..], glue, sep);
      var rest := Split(s[1..], sep);
      if s[0] == glue {
        assert ([[]] + rest)[1..] == rest;
      } else {
        assert ([[s[0]] + rest[0]] + rest[1..])[1..] == rest[1..];
      }
    }
  }

  /** White space of the ASCII and Latin-1 range. */
  function IsSpace(): char -> bool {
    (c: char) => c == ' ' || 9 <= c as int <= 13 || c as int == 0x85 || c as int == 0xA0
  }

  function IsComma(): char -> bool { (c: char) => c == ',' }

  function NonEmpty(ts: seq<string>): (r: seq<string>)
    ensures forall t :: t in r <==> t in ts && t != []
  {
    if ts == [] then [] else if ts[0] == [] then NonEmpty(ts[1..]) else [ts[0]] + NonEmpty(ts[1..])
  }

  /** strings.Fields: the maximal stretches without white space. */
  function Fields(s: string): (r: seq<string>)
    ensures AllSolid(r, IsSpace()) && [] !in r
  {
    NonEmpty(Split(s, IsSpace()))
  }

  lemma {:induction false} NonEmptyOfNonEmpty(ts: seq<string>)
    requires [] !in ts
    ensures NonEmpty(ts) == ts
  {
    if ts != [] { NonEmptyOfNonEmpty(ts[1..]); }
  }

  lemma FieldsOfJoin(fs: seq<string>)
    requires fs != [] && AllSolid(fs, IsSpace()) && [] !in fs
    ensures Fields(Join(fs, ' ')) == fs
  {
    SplitOfJoin(fs, ' ', IsSpace());
    NonEmptyOfNonEmpty(fs);
  }

  lemma {:induction false} SplitAt(a: string, c: char, b: string, sep: char -> bool)
    requires sep(c)
    ensures Split(a + ([c] + b), sep) == Split(a, sep) + Split(b, sep)
  {
    if a == [] {
      assert a + ([c] + b) == [c] + b && ([c] + b)[1..] == b;
    } else {
      assert (a + ([c] + b))[1..] == a[1..] + ([c] + b);
      SplitAt(a[1..], c, b, sep);
    }
  }

  lemma {:induction false} NonEmptyConcat(a: seq<string>, b: seq<string>)
    ensures NonEmpty(a + b) == NonEmpty(a) + NonEmpty(b)
  {
    if a == [] {
      assert a + b == b;
    } else {
      assert (a + b)[1..] == a[1..] + b;
      NonEmptyConcat(a[1..], b);
    }
  }

  predicate IsVisible(a: string) { forall i :: 0 <= i < |a| ==> '!' <= a[i] <= '~' }

  /** Fields end at every blank, tab or line end, however many there are, and nowhere else. */
  lemma FieldsEndAtSpace(a: string, c: char, b: string)
    ensures c in " \t\n\r" ==> Fields(a + ([c] + b)) == Fields(a) + Fields(b)
    ensures a != [] && IsVisible(a) ==> Fields(a) == [a]
    ensures Fields("") == []
  {
    if c in " \t\n\r" {
      SplitAt(a, c, b, IsSpace());
      NonEmptyConcat(Split(a, IsSpace()), Split(b, IsSpace()));
    }
    if a != [] && IsVisible(a) {
      SplitHead(a, ' ', [], IsSpace());
      assert NonEmpty([a]) == [a];
    }
  }

  // ---------------------------------------------------------------- the rewriting

  function Sunday(t: string): string { if t == "7" then "0" else t }

  function Sundays(ts: seq<string>): (r: seq<string>)
    ensures |r| == |ts| && forall i :: 0 <= i < |ts| ==> r[i] == Sunday(ts[i])
  {
    seq(|ts|, i requires 0 <= i < |ts| => Sunday(ts[i]))
  }

  predicate Rewrites(fields: seq<string>) { |fields| == 5 && fields[4] != "*" }

  /** The entries of the day-of-week list. */
  function Days(fields: seq<string>): seq<string>
    requires |fields| == 5
  {
    Split(fields[4], IsComma())
  }

  function Normalized(expr: string): string {
    var fields := Fields(expr);
    if Rewrites(fields) then Join(fields[4 := Join(Sundays(Days(fields)), ',')], ' ') else expr
  }

  method NormalizeCronDOW7(expr: string) returns (r: string)
    ensures r == Normalized(expr)
  {
    var fields := Fields(expr);
    if |fields| != 5 { return expr; }
    if fields[4] == "*" { return expr; }
    var tokens := Split(fields[4], IsComma());
    ghost var days := tokens;
    for i := 0 to |tokens|
      invariant |tokens| == |days|
      invariant forall k :: 0 <= k < |days| ==> tokens[k] == if k < i then Sunday(days[k]) else days[k]
    {
      if tokens[i] == "7" {
        tokens := tokens[i := "0"];
      }
    }
    assert tokens == Sundays(days);
    fields := fields[4 := Join(tokens, ',')];
    return Join(fields, ' ');
  }

  lemma SundaysAreSolid(ts: seq<string>, sep: char -> bool)
    requires AllSolid(ts, sep) && !sep('0')
    ensures AllSolid(Sundays(ts), sep)
  {
    forall t | t in Sundays(ts) ensures Solid(t, sep) {
      var i :| 0 <= i < |ts| && Sundays(ts)[i] == t;
      assert ts[i] in ts;
    }
  }

  lemma {:induction false} SplitKeepsSolid(s: string, sep: char -> bool, other: char -> bool)
    requires Solid(s, other)
    ensures AllSolid(Split(s, sep), other)
  {
    if s != [] {
      SplitKeepsSolid(s[1..], sep, other);
      var rest := Split(s[1..], sep);
      assert Solid(rest[0], other);
      assert forall t :: t in Split(s, sep) ==> t == [] || t in rest || t == [s[0]] + rest[0];
    }
  }

  lemma {:induction false} JoinKeepsSolid(ts: seq<string>, glue: char, sep: char -> bool)
    requires AllSolid(ts, sep) && !sep(glue)
    ensures Solid(Join(ts, glue), sep)
  {
    if ts != [] { assert ts[0] in ts; }
    if |ts| > 1 { JoinKeepsSolid(ts[1..], glue, sep); }
  }

  lemma DaysNotEmpty(dow: string)
    requires dow != []
    ensures Join(Sundays(Split(dow, IsComma())), ',') != []
  {
    JoinOfSplit(dow, ',', IsComma());
  }

  lemma NormalizedFields(expr: string)
    requires Rewrites(Fields(expr))
    ensures var before := Fields(expr);
            Fields(Normalized(expr)) == before[4 := Join(Sundays(Days(before)), ',')]
  {
    var before := Fields(expr);
    var days := Days(before);
    var dow := Join(Sundays(days), ',');
    assert before[4] in before;
    SplitKeepsSolid(before[4], IsComma(), IsSpace());
    SundaysAreSolid(days, IsSpace());
    JoinKeepsSolid(Sundays(days), ',', IsSpace());
    DaysNotEmpty(before[4]);
    FieldsOfJoin(before[4 := dow]);
  }

  /** An expression of five fields keeps its first four fields and its list of days, except that each entry 7 of that
      list is now 0. */
  lemma OnlySundaysChange(expr: string)
    requires |Fields(expr)| == 5
    ensures var before, after := Fields(expr), Fields(Normalized(expr));
      && |after| == 5 && after[..4] == before[..4]
      && |Days(after)| == |Days(before)|
      && (forall i :: 0 <= i < |Days(before)| ==>
            Days(after)[i] == if Days(before)[i] == "7" then "0" else Days(before)[i])
      && "7" !in Days(after)
  {
    var before := Fields(expr);
    if before[4] == "*" {
      SplitHead("*", ',', [], IsComma());
    } else {
      NormalizedFields(expr);
      SundaysAreSolid(Days(before), IsComma());
      SplitOfJoin(Sundays(Days(before)), ',', IsComma());
    }
  }

  /** Every other expression, and one whose last field is a star, is returned as it is, spaces included. */
  lemma OthersAreUnchanged(expr: string)
    requires |Fields(expr)| != 5 || Fields(expr)[4] == "*"
    ensures Normalized(expr) == expr
  {
  }

  /** A daily expression stays what it is. */
  lemma DailyIsUnchanged()
    ensures Fields("0 2 * * *") == ["0", "2", "*", "*", "*"] && Normalized("0 2 * * *") == "0 2 * * *"
  {
    FieldsOfJoin(["0", "2", "*", "*", "*"]);
    assert "0 2 * * *" == Join(["0", "2", "*", "*", "*"], ' ');
    OthersAreUnchanged("0 2 * * *");
  }

  /** A second rewriting changes nothing, and an expression without an entry 7 keeps its fields. */
  lemma RewritingIsIdempotent(expr: string)
    ensures Normalized(Normalized(expr)) == Normalized(expr)
    ensures Rewrites(Fields(expr)) && "7" !in Days(Fields(expr)) ==> Fields(Normalized(expr)) == Fields(expr)
  {
    if Rewrites(Fields(expr)) {
      NormalizedFields(expr);
      OnlySundaysChange(expr);
      WithoutSundays(Fields(Normalized(expr)));
      if "7" !in Days(Fields(expr)) { WithoutSundays(Fields(expr)); }
    }
  }

  lemma WithoutSundays(fields: seq<string>)
    requires |fields| == 5 && "7" !in Days(fields)
    ensures fields[4 := Join(Sundays(Days(fields)), ',')] == fields
  {
    JoinOfSplit(fields[4], ',', IsComma());
    assert Sundays(Days(fields)) == Days(fields);
  }
}
