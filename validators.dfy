/** The pure helpers: the order total (a left fold over the line items) and the
    UUID shape check (a case-insensitive 8-4-4-4-12 regular expression). */
module Validators {
  import opened Types

  function LineAmount(item: Item): int
  {
    item.price * item.quantity
  }

  /** `items.reduce((sum, item) => sum + item.price * item.quantity, acc)`. */
  function Fold(acc: int, items: seq<Item>): int
    decreases |items|
  {
    if items == [] then acc else Fold(acc + LineAmount(items[0]), items[1..])
  }

  /** The order total, in cents. */
  function CalculateTotal(items: seq<Item>): int
  {
    Fold(0, items)
  }

  /** Reference definition: the sum of the line amounts, head first. */
  function SumOfLines(items: seq<Item>): int
    decreases |items|
  {
    if items == [] then 0 else LineAmount(items[0]) + SumOfLines(items[1..])
  }

  lemma {:induction false} FoldIsSum(acc: int, items: seq<Item>)
    ensures Fold(acc, items) == acc + SumOfLines(items)
    decreases |items|
  {
    if items != [] {
      FoldIsSum(acc + LineAmount(items[0]), items[1..]);
    }
  }

  /** The total is 0 for no items and the head's amount plus the total of the rest. */
  lemma TotalRecurrence(items: seq<Item>)
    ensures CalculateTotal([]) == 0
    ensures items != [] ==> CalculateTotal(items) == LineAmount(items[0]) + CalculateTotal(items[1..])
  {
    if items != [] {
      FoldIsSum(0, items);
      FoldIsSum(0, items[1..]);
    }
  }

  lemma {:induction false} SumOfLinesAppend(a: seq<Item>, b: seq<Item>)
    ensures SumOfLines(a + b) == SumOfLines(a) + SumOfLines(b)
    decreases |a|
  {
    if a == [] {
      assert a + b == b;
    } else {
      assert (a + b)[1..] == a[1..] + b;
      SumOfLinesAppend(a[1..], b);
    }
  }

  /** Splitting an order splits its total. */
  lemma TotalOfConcatenation(a: seq<Item>, b: seq<Item>)
    ensures CalculateTotal(a + b) == CalculateTotal(a) + CalculateTotal(b)
  {
    FoldIsSum(0, a + b);
    FoldIsSum(0, a);
    FoldIsSum(0, b);
    SumOfLinesAppend(a, b);
  }

  lemma TotalExamples()
    ensures CalculateTotal([Item("1", "Pizza", 1, 1599)]) == 1599
    ensures CalculateTotal([Item("1", "Pizza", 2, 1599), Item("2", "Soda", 3, 249)]) == 3945
    ensures CalculateTotal([Item("1", "Item", 100, 100)]) == 10000
  {
  }

  // ----- UUID shape -----

  predicate IsHexDigit(c: char)
  {
    ('0' <= c <= '9') || ('a' <= c <= 'f') || ('A' <= c <= 'F')
  }

  predicate AllHex(s: string)
  {
    forall i :: 0 <= i < |s| ==> IsHexDigit(s[i])
  }

  /** Groups of hex digits of the given lengths separated by single dashes, and nothing
      else: the anchored regular expression of the check. */
  predicate MatchesGroups(s: string, groups: seq<nat>)
    decreases |groups|
  {
    if groups == [] then s == []
    else
      var n := groups[0];
      n <= |s| && AllHex(s[..n]) &&
      if |groups| == 1 then |s| == n
      else n < |s| && s[n] == '-' && MatchesGroups(s[n + 1..], groups[1..])
  }

  const UUID_GROUPS: seq<nat> := [8, 4, 4, 4, 12]

  /** `/^[0-9a-f]{8}-[0-9a-f]{4}-[0-9a-f]{4}-[0-9a-f]{4}-[0-9a-f]{12}$/i.test(s)` */
  predicate IsValidUUID(s: string)
  {
    MatchesGroups(s, UUID_GROUPS)
  }

  predicate DashAt(i: int)
  {
    i == 8 || i == 13 || i == 18 || i == 23
  }

  /** The positional reading of the pattern: 36 characters, dashes at 8, 13, 18 and 23,
      a hex digit of either case everywhere else. */
  predicate UUIDShape(s: string)
  {
    |s| == 36 && forall i :: 0 <= i < 36 ==> if DashAt(i) then s[i] == '-' else IsHexDigit(s[i])
  }

  lemma {:induction false} GroupStep(s: string, groups: seq<nat>)
    requires |groups| >= 2
    ensures MatchesGroups(s, groups) <==>
      groups[0] < |s| && AllHex(s[..groups[0]]) && s[groups[0]] == '-' &&
      MatchesGroups(s[groups[0] + 1..], groups[1..])
  {
  }

  lemma UUIDShapeIsPattern(s: string)
    ensures IsValidUUID(s) <==> UUIDShape(s)
  {
    GroupStep(s, [8, 4, 4, 4, 12]);
    assert [8, 4, 4, 4, 12][1..] == [4, 4, 4, 12];
    var s1 := if 8 < |s| then s[9..] else [];
    GroupStep(s1, [4, 4, 4, 12]);
    assert [4, 4, 4, 12][1..] == [4, 4, 12];
    var s2 := if 4 < |s1| then s1[5..] else [];
    GroupStep(s2, [4, 4, 12]);
    assert [4, 4, 12][1..] == [4, 12];
    var s3 := if 4 < |s2| then s2[5..] else [];
    GroupStep(s3, [4, 12]);
    assert [4, 12][1..] == [12];
    var s4 := if 4 < |s3| then s3[5..] else [];
    assert MatchesGroups(s4, [12]) <==> 12 <= |s4| && AllHex(s4[..12]) && |s4| == 12;
    if |s| == 36 {
      assert s1 == s[9..] && s2 == s[14..] && s3 == s[19..] && s4 == s[24..];
      assert AllHex(s[..8]) <==> forall i :: 0 <= i < 8 ==> IsHexDigit(s[i]);
      assert AllHex(s1[..4]) <==> forall i :: 9 <= i < 13 ==> IsHexDigit(s[i]) by {
        assert forall i :: 0 <= i < 4 ==> s1[i] == s[9 + i];
      }
      assert AllHex(s2[..4]) <==> forall i :: 14 <= i < 18 ==> IsHexDigit(s[i]) by {
        assert forall i :: 0 <= i < 4 ==> s2[i] == s[14 + i];
      }
      assert AllHex(s3[..4]) <==> forall i :: 19 <= i < 23 ==> IsHexDigit(s[i]) by {
        assert forall i :: 0 <= i < 4 ==> s3[i] == s[19 + i];
      }
      assert AllHex(s4[..12]) <==> forall i :: 24 <= i < 36 ==> IsHexDigit(s[i]) by {
        assert forall i :: 0 <= i < 12 ==> s4[i] == s[24 + i];
      }
    } else {
      assert !UUIDShape(s);
    }
  }

  lemma UUIDAcceptsDigits()
    ensures IsValidUUID("11111111-1111-1111-1111-111111111111")
  {
    UUIDShapeIsPattern("11111111-1111-1111-1111-111111111111");
  }

  lemma UUIDAcceptsLetters()
    ensures IsValidUUID("aaaa1111-1111-1111-1111-111111111111")
  {
    UUIDShapeIsPattern("aaaa1111-1111-1111-1111-111111111111");
  }

  lemma UUIDRejectsNonHex()
    ensures !IsValidUUID("rrrr1111-1111-1111-1111-111111111111")
  {
    var s := "rrrr1111-1111-1111-1111-111111111111";
    UUIDShapeIsPattern(s);
    assert s[0] == 'r' && !IsHexDigit(s[0]) && !DashAt(0);
  }

  lemma UUIDRejectsWrongLength()
    ensures !IsValidUUID("invalid")
    ensures !IsValidUUID("1111-1111-1111-1111-111111111111")
    ensures !IsValidUUID("")
  {
    UUIDShapeIsPattern("invalid");
    UUIDShapeIsPattern("1111-1111-1111-1111-111111111111");
    UUIDShapeIsPattern("");
  }
}
