/** Printing and parsing of cron representations: six fields separated by spaces. */
module Crons {
  import opened Common

  datatype CronRepresentation =
    CronRepresentation(minute: string, hour: string, day: string, month: string, weekday: string, year: string)

  /** `components(separatedBy: " ")`. */
  function Split(s: string): (parts: seq<string>)
    ensures parts != []
  {
    if s == "" then [""]
    else
      var rest := Split(s[1..]);
      if s[0] == ' ' then [""] + rest else [[s[0]] + rest[0]] + rest[1..]
  }

  function Join(parts: seq<string>): string
    requires parts != []
  {
    if |parts| == 1 then parts[0] else parts[0] + " " + Join(parts[1..])
  }

  function Spaces(s: string): nat {
    if s == "" then 0 else (if s[0] == ' ' then 1 else 0) + Spaces(s[1..])
  }

  function Parts(c: CronRepresentation): seq<string> {
    [c.minute, c.hour, c.day, c.month, c.weekday, c.year]
  }

  /** The string interpolated by the initialiser. */
  function Print(c: CronRepresentation): string {
    c.minute + " " + c.hour + " " + c.day + " " + c.month + " " + c.weekday + " " + c.year
  }

  function Parse(s: string): Option<CronRepresentation> {
    var parts := Split(s);
    if |parts| != 6 then None
    else Some(CronRepresentation(parts[0], parts[1], parts[2], parts[3], parts[4], parts[5]))
  }

  // ---------- splitting and joining ----------

  lemma {:induction false} SplitCounts(s: string)
    ensures |Split(s)| == Spaces(s) + 1
    ensures forall i :: 0 <= i < |Split(s)| ==> ' ' !in Split(s)[i]
  {
    if s != "" {
      SplitCounts(s[1..]);
      var rest := Split(s[1..]);
      forall i | 0 <= i < |Split(s)| ensures ' ' !in Split(s)[i] {
        if s[0] == ' ' {
          assert i > 0 ==> Split(s)[i] == rest[i - 1];
        } else {
          assert i > 0 ==> Split(s)[i] == rest[i];
        }
      }
    }
  }

  lemma {:induction false} JoinSplit(s: string)
    ensures Join(Split(s)) == s
  {
    if s != "" {
      JoinSplit(s[1..]);
      var rest := Split(s[1..]);
      if s[0] == ' ' {
        assert ([""] + rest)[1..] == rest;
        assert s == " " + s[1..];
      } else {
        JoinFront(s[0], rest);
        assert s == [s[0]] + s[1..];
      }
    }
  }

  lemma {:induction false} JoinFront(x: char, parts: seq<string>)
    requires parts != []
    ensures Join([[x] + parts[0]] + parts[1..]) == [x] + Join(parts)
  {
  }

  lemma {:induction false} SplitFirst(p: string, rest: string)
    requires ' ' !in p
    ensures Split(p + " " + rest) == [p] + Split(rest)
  {
    var s := p + " " + rest;
    if p == "" {
      assert s[1..] == rest;
    } else {
      assert s[0] == p[0] && s[1..] == p[1..] + " " + rest;
      SplitFirst(p[1..], rest);
      assert [p[0]] + p[1..] == p;
    }
  }

  lemma {:induction false} SplitAlone(p: string)
    requires ' ' !in p
    ensures Split(p) == [p]
  {
    if p != "" {
      SplitAlone(p[1..]);
      assert [p[0]] + p[1..] == p;
    }
  }

  /** Splitting recovers the parts exactly when none of them contains a space. */
  lemma {:induction false} SplitJoinIff(parts: seq<string>)
    requires parts != []
    ensures Split(Join(parts)) == parts <==> forall i :: 0 <= i < |parts| ==> ' ' !in parts[i]
  {
    if forall i :: 0 <= i < |parts| ==> ' ' !in parts[i] {
      SplitJoin(parts);
    } else {
      SplitCounts(Join(parts));
    }
  }

  lemma {:induction false} SplitJoin(parts: seq<string>)
    requires parts != [] && forall i :: 0 <= i < |parts| ==> ' ' !in parts[i]
    ensures Split(Join(parts)) == parts
  {
    if |parts| == 1 {
      SplitAlone(parts[0]);
    } else {
      SplitJoin(parts[1..]);
      SplitFirst(parts[0], Join(parts[1..]));
    }
  }

  // ---------- printing and parsing ----------

  lemma {:induction false} PrintJoins(c: CronRepresentation)
    ensures Print(c) == Join(Parts(c))
  {
    JoinTwo(c.weekday, [c.year]);
    JoinTwo(c.month, [c.weekday, c.year]);
    JoinTwo(c.day, [c.month, c.weekday, c.year]);
    JoinTwo(c.hour, [c.day, c.month, c.weekday, c.year]);
    JoinTwo(c.minute, [c.hour, c.day, c.month, c.weekday, c.year]);
    assert Parts(c) == [c.minute] + [c.hour, c.day, c.month, c.weekday, c.year];
    assert [c.hour] + [c.day, c.month, c.weekday, c.year] == [c.hour, c.day, c.month, c.weekday, c.year];
    assert [c.day] + [c.month, c.weekday, c.year] == [c.day, c.month, c.weekday, c.year];
    assert [c.month] + [c.weekday, c.year] == [c.month, c.weekday, c.year];
    assert [c.weekday] + [c.year] == [c.weekday, c.year];
    assert Print(c) == c.minute + " " + (c.hour + " " + (c.day + " " + (c.month + " " + (c.weekday + " " + c.year))));
  }

  lemma {:induction false} JoinTwo(p: string, rest: seq<string>)
    requires rest != []
    ensures Join([p] + rest) == p + " " + Join(rest)
  {
  }

  /** A printed representation parses back to itself exactly when none of its fields
      contains a space; otherwise it does not parse at all. */
  lemma {:induction false} PrintParseIff(c: CronRepresentation)
    ensures Parse(Print(c)) == Some(c) <==> forall i :: 0 <= i < 6 ==> ' ' !in Parts(c)[i]
    ensures Parse(Print(c)) == Some(c) || Parse(Print(c)) == None
  {
    PrintJoins(c);
    SplitJoinIff(Parts(c));
    SplitCounts(Print(c));
    SpacesOfJoin(Parts(c));
    if Parse(Print(c)).Some? && exists i :: 0 <= i < 6 && ' ' in Parts(c)[i] {
      var i :| 0 <= i < 6 && ' ' in Parts(c)[i];
      SomeSpace(Parts(c), i);
    } else if Parse(Print(c)).Some? {
      assert Split(Print(c)) == Parts(c);
    }
  }

  function TotalSpaces(parts: seq<string>): nat {
    if parts == [] then 0 else Spaces(parts[0]) + TotalSpaces(parts[1..])
  }

  lemma {:induction false} SpacesAppend(a: string, b: string)
    ensures Spaces(a + b) == Spaces(a) + Spaces(b)
  {
    if a == "" {
      assert a + b == b;
    } else {
      assert (a + b)[1..] == a[1..] + b;
      SpacesAppend(a[1..], b);
    }
  }

  lemma {:induction false} SpacesOfJoin(parts: seq<string>)
    requires parts != []
    ensures Spaces(Join(parts)) == TotalSpaces(parts) + |parts| - 1
  {
    if |parts| == 1 {
      assert parts[1..] == [];
    } else {
      SpacesOfJoin(parts[1..]);
      SpacesAppend(parts[0] + " ", Join(parts[1..]));
      SpacesAppend(parts[0], " ");
      assert " "[1..] == "";
    }
  }

  lemma {:induction false} SomeSpace(parts: seq<string>, i: nat)
    requires i < |parts| && ' ' in parts[i]
    ensures TotalSpaces(parts) > 0
  {
    if i == 0 {
      SpaceCounts(parts[0]);
    } else {
      SomeSpace(parts[1..], i - 1);
    }
  }

  lemma {:induction false} SpaceCounts(s: string)
    requires ' ' in s
    ensures Spaces(s) > 0
  {
    if s[0] != ' ' {
      SpaceCounts(s[1..]);
    }
  }

  /** A string parses exactly when it has five spaces, and then it is made of the six
      fields in their order, which is also what they print as. */
  lemma {:induction false} ParsePrint(s: string)
    ensures Parse(s).Some? <==> Spaces(s) == 5
    ensures Parse(s).Some? ==>
      var c := Parse(s).value;
      s == c.minute + " " + c.hour + " " + c.day + " " + c.month + " " + c.weekday + " " + c.year == Print(c)
  {
    SplitCounts(s);
    if Parse(s).Some? {
      var c := Parse(s).value;
      PrintJoins(c);
      assert Parts(c) == Split(s);
      JoinSplit(s);
    }
  }
}
