/** Table queries: the query object and the builders of filter strings. */
module TableQueries {
  import opened Common
  import opened Decimal
  import opened EntityProperties

  /** `generate_filter_condition_impl(property_name, comparison_operator,
      value)`, whose body is not part of this model: every typed overload
      formats its value as a literal and hands the three strings to it. */
  type ConditionFormatter = (string, string, string) -> string

  /** `table_query` */
  class TableQuery {
    var takeCount: int
    var filterString: string
    var selectColumns: seq<string>

    /** A new query takes every entity (-1), with no filter and no
        selected columns. */
    constructor ()
      ensures takeCount == -1 && filterString == "" && selectColumns == []
    {
      takeCount, filterString, selectColumns := -1, "", [];
    }

    method SetTakeCount(n: int)
      modifies this
      ensures takeCount == n
      ensures filterString == old(filterString) && selectColumns == old(selectColumns)
    {
      takeCount := n;
    }

    method SetFilterString(filter: string)
      modifies this
      ensures filterString == filter
      ensures takeCount == old(takeCount) && selectColumns == old(selectColumns)
    {
      filterString := filter;
    }

    method SetSelectColumns(columns: seq<string>)
      modifies this
      ensures selectColumns == columns
      ensures takeCount == old(takeCount) && filterString == old(filterString)
    {
      selectColumns := columns;
    }

    /** `combine_filter_conditions`: each operand in its own parentheses,
        the operator between them, separated by single spaces. */
    static method CombineFilterConditions(left: string, logicalOperator: string, right: string)
      returns (result: string)
      ensures result == "(" + left + ") " + logicalOperator + " (" + right + ")"
      ensures |result| == |left| + |logicalOperator| + |right| + 6
      ensures result[0] == '(' && result[|result| - 1] == ')'
    {
      result := [];
      result := result + ['('];
      result := result + left;
      result := result + [')'];
      result := result + [' '];
      result := result + logicalOperator;
      result := result + [' '];
      result := result + ['('];
      result := result + right;
      result := result + [')'];
    }

    /** `generate_filter_condition(..., bool)` */
    static function GenerateBooleanFilterCondition(
      impl: ConditionFormatter, propertyName: string, comparisonOperator: string, value: bool): (r: string)
      ensures r == impl(propertyName, comparisonOperator, BooleanText(value))
    {
      impl(propertyName, comparisonOperator, if value then "true" else "false")
    }

    /** `generate_filter_condition(..., uuid)`, given the GUID's text. */
    static function GenerateGuidFilterCondition(
      impl: ConditionFormatter, propertyName: string, comparisonOperator: string, guid: string): (r: string)
      ensures r == impl(propertyName, comparisonOperator, GuidLiteral(guid))
    {
      impl(propertyName, comparisonOperator, "guid'" + guid + "'")
    }

    /** `generate_filter_condition(..., int32_t)` */
    static function GenerateInt32FilterCondition(
      impl: ConditionFormatter, propertyName: string, comparisonOperator: string, value: Int32): (r: string)
      ensures r == impl(propertyName, comparisonOperator, DecimalText(value))
      ensures ExtractInteger(DecimalText(value), MinInt32, MaxInt32) == Some(value as int)
    {
      DecimalRoundTrip(value, MinInt32, MaxInt32);
      impl(propertyName, comparisonOperator, DecimalText(value))
    }

    /** `generate_filter_condition(..., int64_t)` */
    static function GenerateInt64FilterCondition(
      impl: ConditionFormatter, propertyName: string, comparisonOperator: string, value: Int64): (r: string)
      ensures r == impl(propertyName, comparisonOperator, Int64Literal(value))
    {
      impl(propertyName, comparisonOperator, DecimalText(value) + "L")
    }
  }

  /** The literal a GUID condition compares with: the GUID's text between
      `guid'` and `'`. The GUID can be read back from between the quotes. */
  function GuidLiteral(guid: string): (r: string)
    ensures |r| == |guid| + 6
    ensures r[..5] == "guid'" && r[5..|r| - 1] == guid && r[|r| - 1] == '\''
  {
    "guid'" + guid + "'"
  }

  /** The literal a 64-bit condition compares with: the decimal text with
      an `L` suffix. The number before the suffix reads back as the value. */
  function Int64Literal(n: Int64): (r: string)
    ensures |r| >= 2 && r[|r| - 1] == 'L'
    ensures ExtractInteger(r, MinInt64, MaxInt64) == Some(n)
  {
    DecimalPrefixRoundTrip(n, "L", MinInt64, MaxInt64);
    DecimalText(n) + "L"
  }

  // Parenthesis nesting of filter strings.

  /** Opening minus closing parentheses in `s`. */
  function Depth(s: string): int
  {
    if s == [] then 0
    else Depth(s[..|s| - 1]) + (if s[|s| - 1] == '(' then 1 else if s[|s| - 1] == ')' then -1 else 0)
  }

  /** Every prefix closes no more parentheses than it opened, and the whole
      closes them all. */
  predicate Balanced(s: string)
  {
    Depth(s) == 0 && forall k :: 0 <= k <= |s| ==> Depth(s[..k]) >= 0
  }

  lemma {:induction false} DepthAppend(a: string, b: string)
    ensures Depth(a + b) == Depth(a) + Depth(b)
    decreases |b|
  {
    if b == [] {
      assert a + b == a;
    } else {
      assert (a + b)[..|a + b| - 1] == a + b[..|b| - 1];
      DepthAppend(a, b[..|b| - 1]);
    }
  }

  /** Depth of a prefix of a concatenation that reaches into `b`. */
  lemma DepthOfLongPrefix(a: string, b: string, k: int)
    requires |a| <= k <= |a| + |b|
    ensures Depth((a + b)[..k]) == Depth(a) + Depth(b[..k - |a|])
  {
    assert (a + b)[..k] == a + b[..k - |a|];
    DepthAppend(a, b[..k - |a|]);
  }

  lemma BalancedAppend(a: string, b: string)
    requires Balanced(a) && Balanced(b)
    ensures Balanced(a + b)
  {
    DepthAppend(a, b);
    forall k | 0 <= k <= |a + b| ensures Depth((a + b)[..k]) >= 0 {
      if k <= |a| {
        assert (a + b)[..k] == a[..k];
      } else {
        DepthOfLongPrefix(a, b, k);
      }
    }
  }

  /** Text without parentheses is balanced at every prefix. */
  lemma {:induction false} NoParenthesesDepth(s: string)
    requires forall i :: 0 <= i < |s| ==> s[i] != '(' && s[i] != ')'
    ensures Depth(s) == 0
  {
    if s != [] {
      NoParenthesesDepth(s[..|s| - 1]);
    }
  }

  lemma BalancedWithoutParentheses(s: string)
    requires forall i :: 0 <= i < |s| ==> s[i] != '(' && s[i] != ')'
    ensures Balanced(s)
  {
    NoParenthesesDepth(s);
    forall k | 0 <= k <= |s| ensures Depth(s[..k]) >= 0 {
      NoParenthesesDepth(s[..k]);
    }
  }

  lemma DepthOfParentheses()
    ensures Depth("(") == 1 && Depth(")") == -1
  {
    assert "("[..0] == [] && ")"[..0] == [];
  }

  /** A prefix of a parenthesised string that stops before its closing
      parenthesis is one deeper than the matching prefix of the inside. */
  lemma GroupPrefixDepth(s: string, k: nat)
    requires 1 <= k <= |s| + 1
    ensures Depth(("(" + s + ")")[..k]) == 1 + Depth(s[..k - 1])
  {
    assert ("(" + s + ")")[..k] == "(" + s[..k - 1];
    DepthAppend("(", s[..k - 1]);
    DepthOfParentheses();
  }

  /** A balanced string in parentheses is balanced, and its opening
      parenthesis stays open until the very last character. */
  lemma Grouped(s: string)
    requires Balanced(s)
    ensures Balanced("(" + s + ")")
    ensures forall k :: 1 <= k <= |s| + 1 ==> Depth(("(" + s + ")")[..k]) >= 1
  {
    var g := "(" + s + ")";
    assert Depth(g) == 0 by {
      assert g == "(" + (s + ")");
      DepthAppend("(", s + ")");
      DepthAppend(s, ")");
      DepthOfParentheses();
    }
    forall k | 1 <= k <= |s| + 1 ensures Depth(g[..k]) >= 1 {
      GroupPrefixDepth(s, k);
    }
    forall k | 0 <= k <= |g| ensures Depth(g[..k]) >= 0 {
      if k == 0 {
        assert g[..k] == [];
      } else if k == |g| {
        assert g[..k] == g;
      }
    }
  }

  /** Combining balanced conditions with a balanced operator yields a
      balanced filter in which the left operand is one closed group: the
      parenthesis opened before it closes right after it. */
  lemma CombinedFilterIsBalanced(left: string, logicalOperator: string, right: string)
    requires Balanced(left) && Balanced(logicalOperator) && Balanced(right)
    ensures Balanced("(" + left + ") " + logicalOperator + " (" + right + ")")
    ensures var c := "(" + left + ") " + logicalOperator + " (" + right + ")";
      Depth(c[..|left| + 2]) == 0 && forall k :: 1 <= k <= |left| + 1 ==> Depth(c[..k]) >= 1
  {
    var gl := "(" + left + ")";
    var gr := "(" + right + ")";
    Grouped(left);
    Grouped(right);
    BalancedWithoutParentheses(" ");
    BalancedAppend(gl, " ");
    BalancedAppend(gl + " ", logicalOperator);
    BalancedAppend(gl + " " + logicalOperator, " ");
    BalancedAppend(gl + " " + logicalOperator + " ", gr);
    var c := "(" + left + ") " + logicalOperator + " (" + right + ")";
    assert c == gl + " " + logicalOperator + " " + gr;
    assert c[..|left| + 2] == gl;
    forall k | 1 <= k <= |left| + 1 ensures Depth(c[..k]) >= 1 {
      assert c[..k] == gl[..k];
    }
  }
}
