/**
 * The hand-built SQL of the older storage revision
 * (subscriptions_backend/repository/postgres_storage/subscription.go): every
 * present filter field appends one condition `<column> <op> $<n>` and, in
 * lockstep, the value that placeholder `$n` is bound to.
 *
 * The specification functions below number the conditions and collect the
 * bound values; BuildListQuery and BuildTotalCostQuery are proved to produce
 * exactly them, and the lemmas show that the numbering is right and that the
 * query, read with SQL's semantics, selects the rows Storage.MatchesList and
 * Storage.MatchesTotal describe.
 */
module QueryBuilder {
  import opened Wrappers
  import opened Text
  import opened Domain
  import opened Storage

  /** A value passed to the driver for one placeholder. */
  datatype Arg = UuidArg(uuid: Uuid) | TextArg(text: string) | IntArg(number: int) | DateArg(date: Date)

  /** The filterable columns. */
  datatype Column = UserIdColumn | ServiceNameColumn | PriceColumn | StartDateColumn | EndDateColumn

  datatype Comparison = Equal | AtLeast | AtMost

  /** A present filter field: its column, its comparison and the value to bind. */
  datatype Term = Term(column: Column, comparison: Comparison, arg: Arg)

  /** A WHERE conjunct `<column> <op> $<placeholder>`. */
  datatype Condition = Condition(column: Column, comparison: Comparison, placeholder: nat)

  const ListSelect := "SELECT id, service_name, price, user_id, start_date, end_date\n        FROM subscriptions"

  const TotalSelect := "SELECT id, service_name, price, user_id, start_date, end_date\n              FROM subscriptions\n              WHERE start_date <= $2\n                AND (end_date IS NULL OR end_date >= $1)"

  function ColumnName(c: Column): string
  {
    match c
    case UserIdColumn => "user_id"
    case ServiceNameColumn => "service_name"
    case PriceColumn => "price"
    case StartDateColumn => "start_date"
    case EndDateColumn => "end_date"
  }

  /** The position of a column in the order the source tests the filter fields. */
  function Rank(c: Column): nat
  {
    match c
    case UserIdColumn => 0
    case ServiceNameColumn => 1
    case PriceColumn => 2
    case StartDateColumn => 3
    case EndDateColumn => 4
  }

  function ColumnOfRank(r: nat): (c: Column)
    requires r < 5
    ensures Rank(c) == r
  {
    if r == 0 then UserIdColumn
    else if r == 1 then ServiceNameColumn
    else if r == 2 then PriceColumn
    else if r == 3 then StartDateColumn
    else EndDateColumn
  }

  /** Equality on the three value columns, a lower bound on start_date, an upper bound on end_date. */
  function ComparisonOf(c: Column): Comparison
  {
    match c
    case StartDateColumn => AtLeast
    case EndDateColumn => AtMost
    case _ => Equal
  }

  function OperatorText(op: Comparison): string
  {
    match op
    case Equal => "="
    case AtLeast => ">="
    case AtMost => "<="
  }

  /** The text begins with the column's name. */
  predicate StartsWithColumn(text: string, col: Column)
  {
    |ColumnName(col)| <= |text| && text[..|ColumnName(col)|] == ColumnName(col)
  }

  /** The text ends with `$` and the decimal digits of a number that reads back as `p`. */
  predicate EndsWithPlaceholder(text: string, p: nat)
  {
    var digits := NatToDecimal(p);
    |digits| < |text| && text[|text| - |digits| - 1] == '$' && text[|text| - |digits|..] == digits
    && DecimalValue(digits) == p
  }

  /** `fmt.Sprintf("<column> <op> $%d", placeholder)`; RenderShape states what the text holds. */
  function Render(c: Condition): string
  {
    ColumnName(c.column) + " " + OperatorText(c.comparison) + " $" + NatToDecimal(c.placeholder)
  }

  /**
   * A rendered condition starts with its column's name and ends with `$` and
   * the placeholder number, which can be read back from the text.
   */
  lemma RenderShape(c: Condition)
    ensures StartsWithColumn(Render(c), c.column)
    ensures EndsWithPlaceholder(Render(c), c.placeholder)
  {
    var head := ColumnName(c.column) + " " + OperatorText(c.comparison) + " ";
    var digits := NatToDecimal(c.placeholder);
    assert Render(c) == head + "$" + digits;
    DecimalRoundTrip(c.placeholder);
  }

  function RenderAll(conds: seq<Condition>): (texts: seq<string>)
    ensures |texts| == |conds|
    ensures forall k :: 0 <= k < |conds| ==> texts[k] == Render(conds[k])
  {
    if conds == [] then [] else RenderAll(conds[..|conds| - 1]) + [Render(conds[|conds| - 1])]
  }

  /** The value a query binds for a column, or None when that filter field is nil. */
  function BoundOf(c: Criterion, col: Column): Option<Arg>
  {
    match c
    case ListQuery(f) =>
      (match col
       case UserIdColumn => if f.userId.Some? then Some(UuidArg(f.userId.value)) else None
       case ServiceNameColumn => if f.serviceName.Some? then Some(TextArg(f.serviceName.value)) else None
       case PriceColumn => if f.price.Some? then Some(IntArg(f.price.value)) else None
       case StartDateColumn => if f.startDate.Some? then Some(DateArg(f.startDate.value)) else None
       case EndDateColumn => if f.endDate.Some? then Some(DateArg(f.endDate.value)) else None)
    case TotalCostQuery(f) =>
      (match col
       case UserIdColumn => if f.userId.Some? then Some(UuidArg(f.userId.value)) else None
       case ServiceNameColumn => if f.serviceName.Some? then Some(TextArg(f.serviceName.value)) else None
       case _ => None)
  }

  /** How many columns, taken in rank order, a query may constrain with a placeholder. */
  function OptionalCount(c: Criterion): nat
  {
    if c.ListQuery? then 5 else 2
  }

  /** The term for a column whose field is present, appended after `terms`. */
  function Add(terms: seq<Term>, c: Criterion, col: Column): seq<Term>
  {
    match BoundOf(c, col)
    case Some(a) => terms + [Term(col, ComparisonOf(col), a)]
    case None => terms
  }

  /** The terms of the present fields among the first `n` columns, in rank order. */
  function Terms(c: Criterion, n: nat): (terms: seq<Term>)
    requires n <= 5
    ensures |terms| <= n
    ensures forall k :: 0 <= k < |terms| ==>
              Rank(terms[k].column) < n && BoundOf(c, terms[k].column) == Some(terms[k].arg)
              && terms[k].comparison == ComparisonOf(terms[k].column)
  {
    if n == 0 then [] else Add(Terms(c, n - 1), c, ColumnOfRank(n - 1))
  }

  /** The conditions for `terms`, numbered from placeholder `first`. */
  function Numbered(terms: seq<Term>, first: nat): (conds: seq<Condition>)
    ensures |conds| == |terms|
    ensures forall k :: 0 <= k < |terms| ==>
              conds[k] == Condition(terms[k].column, terms[k].comparison, first + k)
  {
    if terms == [] then []
    else
      var t := terms[|terms| - 1];
      Numbered(terms[..|terms| - 1], first) + [Condition(t.column, t.comparison, first + |terms| - 1)]
  }

  /** The values bound by `terms`, in order. */
  function Bindings(terms: seq<Term>): (args: seq<Arg>)
    ensures |args| == |terms|
    ensures forall k :: 0 <= k < |terms| ==> args[k] == terms[k].arg
  {
    if terms == [] then [] else Bindings(terms[..|terms| - 1]) + [terms[|terms| - 1].arg]
  }

  /** `keyword + strings.Join(conditions, " AND ")` when there is a condition, nothing otherwise. */
  function Clause(conds: seq<Condition>, keyword: string): string
  {
    if conds == [] then "" else keyword + Join(RenderAll(conds), " AND ")
  }

  function ListConditions(f: SubscriptionFilter): seq<Condition>
  {
    Numbered(Terms(ListQuery(f), 5), 1)
  }

  function ListArgs(f: SubscriptionFilter): seq<Arg>
  {
    Bindings(Terms(ListQuery(f), 5))
  }

  function ListQueryText(f: SubscriptionFilter): string
  {
    ListSelect + Clause(ListConditions(f), " WHERE ")
  }

  /** The optional conditions of the total-cost query, after the period's $1 and $2. */
  function TotalConditions(f: TotalCostFilter): seq<Condition>
  {
    Numbered(Terms(TotalCostQuery(f), 2), 3)
  }

  function TotalArgs(f: TotalCostFilter): seq<Arg>
  {
    [DateArg(f.startDate), DateArg(f.endDate)] + Bindings(Terms(TotalCostQuery(f), 2))
  }

  function TotalQueryText(f: TotalCostFilter): string
  {
    TotalSelect + Clause(TotalConditions(f), " AND ")
  }

  // SQL semantics of the conditions.

  /** A row's value in a column; NULL (None) only for a missing end_date. */
  function ColumnValue(s: Subscription, col: Column): Option<Arg>
  {
    match col
    case UserIdColumn => Some(UuidArg(s.userId))
    case ServiceNameColumn => Some(TextArg(s.serviceName))
    case PriceColumn => Some(IntArg(s.price))
    case StartDateColumn => Some(DateArg(s.startDate))
    case EndDateColumn => if s.endDate.Some? then Some(DateArg(s.endDate.value)) else None
  }

  /** A comparison with NULL is unknown, and WHERE keeps only rows where it is true. */
  predicate Compare(op: Comparison, v: Option<Arg>, a: Arg)
  {
    match op
    case Equal => v == Some(a)
    case AtLeast => v.Some? && v.value.DateArg? && a.DateArg? && !Before(v.value.date, a.date)
    case AtMost => v.Some? && v.value.DateArg? && a.DateArg? && !After(v.value.date, a.date)
  }

  /** The row satisfies the condition, with its placeholder bound by `args`. */
  predicate Holds(c: Condition, args: seq<Arg>, s: Subscription)
  {
    1 <= c.placeholder <= |args| && Compare(c.comparison, ColumnValue(s, c.column), args[c.placeholder - 1])
  }

  predicate SatisfiesAll(conds: seq<Condition>, args: seq<Arg>, s: Subscription)
  {
    forall k :: 0 <= k < |conds| ==> Holds(conds[k], args, s)
  }

  /** The fixed part of the total-cost WHERE: `start_date <= $2 AND (end_date IS NULL OR end_date >= $1)`. */
  predicate BaseHolds(args: seq<Arg>, s: Subscription)
  {
    Holds(Condition(StartDateColumn, AtMost, 2), args, s)
    && (s.endDate.None? || Holds(Condition(EndDateColumn, AtLeast, 1), args, s))
  }

  predicate TermHolds(t: Term, s: Subscription)
  {
    Compare(t.comparison, ColumnValue(s, t.column), t.arg)
  }

  predicate AllTermsHold(terms: seq<Term>, s: Subscription)
  {
    forall k :: 0 <= k < |terms| ==> TermHolds(terms[k], s)
  }

  /** Every present field of the criterion holds for the row. */
  predicate FieldsHold(c: Criterion, s: Subscription)
  {
    forall col :: BoundOf(c, col).Some? ==> TermHolds(Term(col, ComparisonOf(col), BoundOf(c, col).value), s)
  }

  // Properties of the specification functions.

  /** Every present field among the first `n` columns gets a term. */
  lemma {:induction false} TermsComplete(c: Criterion, n: nat, col: Column)
    requires n <= 5 && Rank(col) < n && BoundOf(c, col).Some?
    ensures exists k :: 0 <= k < |Terms(c, n)| && Terms(c, n)[k].column == col
    decreases n
  {
    var prefix := Terms(c, n - 1);
    if Rank(col) == n - 1 {
      assert ColumnOfRank(n - 1) == col;
      assert Terms(c, n)[|prefix|].column == col;
    } else {
      TermsComplete(c, n - 1, col);
      var k :| 0 <= k < |prefix| && prefix[k].column == col;
      assert Terms(c, n)[k] == prefix[k];
    }
  }

  /** The terms come in rank order, so each column appears at most once. */
  lemma {:induction false} TermsInRankOrder(c: Criterion, n: nat)
    requires n <= 5
    ensures forall i, j :: 0 <= i < j < |Terms(c, n)| ==> Rank(Terms(c, n)[i].column) < Rank(Terms(c, n)[j].column)
    decreases n
  {
    if n > 0 {
      TermsInRankOrder(c, n - 1);
    }
  }

  /** The numbered conditions hold, with their values bound after `prefix`, iff every term holds. */
  lemma NumberedHoldsIff(terms: seq<Term>, prefix: seq<Arg>, first: nat, s: Subscription)
    requires first == |prefix| + 1
    ensures SatisfiesAll(Numbered(terms, first), prefix + Bindings(terms), s) <==> AllTermsHold(terms, s)
  {
    forall k | 0 <= k < |terms|
      ensures Holds(Numbered(terms, first)[k], prefix + Bindings(terms), s) <==> TermHolds(terms[k], s)
    {
      NumberedHoldsAt(terms, prefix, s, k);
    }
  }

  lemma NumberedHoldsAt(terms: seq<Term>, prefix: seq<Arg>, s: Subscription, k: nat)
    requires k < |terms|
    ensures Holds(Numbered(terms, |prefix| + 1)[k], prefix + Bindings(terms), s) <==> TermHolds(terms[k], s)
  {
    var args := prefix + Bindings(terms);
    assert args[|prefix| + k] == terms[k].arg;
  }

  /** The terms all hold iff every present field holds. */
  lemma TermsHoldIff(c: Criterion, s: Subscription)
    ensures AllTermsHold(Terms(c, OptionalCount(c)), s) <==> FieldsHold(c, s)
  {
    var n := OptionalCount(c);
    var terms := Terms(c, n);
    if AllTermsHold(terms, s) {
      forall col | BoundOf(c, col).Some?
        ensures TermHolds(Term(col, ComparisonOf(col), BoundOf(c, col).value), s)
      {
        TermsComplete(c, n, col);
        var k :| 0 <= k < |terms| && terms[k].column == col;
        assert TermHolds(terms[k], s);
      }
    }
    if FieldsHold(c, s) {
      forall k | 0 <= k < |terms|
        ensures TermHolds(terms[k], s)
      {
        var col := terms[k].column;
        assert terms[k] == Term(col, ComparisonOf(col), BoundOf(c, col).value);
      }
    }
  }

  /** The list query's conditions and values are in lockstep: the k-th condition uses $k, bound to its field's value. */
  lemma ListPlaceholdersInLockstep(f: SubscriptionFilter)
    ensures |ListConditions(f)| == |ListArgs(f)| <= 5
    ensures forall k :: 0 <= k < |ListConditions(f)| ==>
              ListConditions(f)[k].placeholder == k + 1
              && Some(ListArgs(f)[k]) == BoundOf(ListQuery(f), ListConditions(f)[k].column)
              && ListConditions(f)[k].comparison == ComparisonOf(ListConditions(f)[k].column)
  {
  }

  /** Conditions come in the order user_id, service_name, price, start_date, end_date. */
  lemma ListConditionsInOrder(f: SubscriptionFilter)
    ensures forall i, j :: 0 <= i < j < |ListConditions(f)| ==> Rank(ListConditions(f)[i].column) < Rank(ListConditions(f)[j].column)
  {
    TermsInRankOrder(ListQuery(f), 5);
  }

  /** A column has a condition exactly when its filter field is present. */
  lemma ListConditionIffField(f: SubscriptionFilter, col: Column)
    ensures (exists k :: 0 <= k < |ListConditions(f)| && ListConditions(f)[k].column == col) <==> BoundOf(ListQuery(f), col).Some?
  {
    var terms := Terms(ListQuery(f), 5);
    if BoundOf(ListQuery(f), col).Some? {
      TermsComplete(ListQuery(f), 5, col);
      var k :| 0 <= k < |terms| && terms[k].column == col;
      assert ListConditions(f)[k].column == col;
    }
  }

  /** The present fields of a list filter hold exactly when MatchesList does. */
  lemma ListFieldsHoldIff(f: SubscriptionFilter, s: Subscription)
    ensures FieldsHold(ListQuery(f), s) <==> MatchesList(f, s)
  {
    var c := ListQuery(f);
    if FieldsHold(c, s) {
      assert BoundOf(c, UserIdColumn).Some? ==> TermHolds(Term(UserIdColumn, Equal, BoundOf(c, UserIdColumn).value), s);
      assert BoundOf(c, ServiceNameColumn).Some? ==> TermHolds(Term(ServiceNameColumn, Equal, BoundOf(c, ServiceNameColumn).value), s);
      assert BoundOf(c, PriceColumn).Some? ==> TermHolds(Term(PriceColumn, Equal, BoundOf(c, PriceColumn).value), s);
      assert BoundOf(c, StartDateColumn).Some? ==> TermHolds(Term(StartDateColumn, AtLeast, BoundOf(c, StartDateColumn).value), s);
      assert BoundOf(c, EndDateColumn).Some? ==> TermHolds(Term(EndDateColumn, AtMost, BoundOf(c, EndDateColumn).value), s);
    }
  }

  /** With SQL semantics, the list query selects exactly the rows MatchesList describes. */
  lemma ListQuerySemantics(f: SubscriptionFilter, s: Subscription)
    ensures SatisfiesAll(ListConditions(f), ListArgs(f), s) <==> MatchesList(f, s)
  {
    var c := ListQuery(f);
    var terms := Terms(c, 5);
    var none: seq<Arg> := [];
    NumberedHoldsIff(terms, none, 1, s);
    assert none + Bindings(terms) == ListArgs(f);
    TermsHoldIff(c, s);
    ListFieldsHoldIff(f, s);
  }

  /** No condition, and so no WHERE, exactly when no field of the list filter is present. */
  lemma BareSelectIffEmptyFilter(f: SubscriptionFilter)
    ensures ListQueryText(f) == ListSelect <==> f == EmptyFilter
  {
    if f != EmptyFilter {
      var col := if f.userId.Some? then UserIdColumn
                 else if f.serviceName.Some? then ServiceNameColumn
                 else if f.price.Some? then PriceColumn
                 else if f.startDate.Some? then StartDateColumn
                 else EndDateColumn;
      ListConditionIffField(f, col);
      assert |ListQueryText(f)| > |ListSelect|;
    } else {
      assert Terms(ListQuery(f), 5) == [];
    }
  }

  /** The total query binds $1 and $2 to the period and numbers its optional conditions from $3. */
  lemma TotalPlaceholdersInLockstep(f: TotalCostFilter)
    ensures |TotalArgs(f)| == 2 + |TotalConditions(f)| <= 4
    ensures TotalArgs(f)[0] == DateArg(f.startDate) && TotalArgs(f)[1] == DateArg(f.endDate)
    ensures forall k :: 0 <= k < |TotalConditions(f)| ==>
              TotalConditions(f)[k].placeholder == k + 3
              && Some(TotalArgs(f)[k + 2]) == BoundOf(TotalCostQuery(f), TotalConditions(f)[k].column)
              && TotalConditions(f)[k].comparison == Equal
  {
  }

  /** The present fields of a total-cost filter hold exactly when its two optional equalities do. */
  lemma TotalFieldsHoldIff(f: TotalCostFilter, s: Subscription)
    ensures FieldsHold(TotalCostQuery(f), s)
        <==> (f.userId.Some? ==> s.userId == f.userId.value) && (f.serviceName.Some? ==> s.serviceName == f.serviceName.value)
  {
    var c := TotalCostQuery(f);
    if FieldsHold(c, s) {
      assert BoundOf(c, UserIdColumn).Some? ==> TermHolds(Term(UserIdColumn, Equal, BoundOf(c, UserIdColumn).value), s);
      assert BoundOf(c, ServiceNameColumn).Some? ==> TermHolds(Term(ServiceNameColumn, Equal, BoundOf(c, ServiceNameColumn).value), s);
    }
  }

  /** With SQL semantics, the total query selects exactly the rows MatchesTotal describes. */
  lemma TotalQuerySemantics(f: TotalCostFilter, s: Subscription)
    ensures BaseHolds(TotalArgs(f), s) && SatisfiesAll(TotalConditions(f), TotalArgs(f), s) <==> MatchesTotal(f, s)
  {
    var c := TotalCostQuery(f);
    var period := [DateArg(f.startDate), DateArg(f.endDate)];
    NumberedHoldsIff(Terms(c, 2), period, 3, s);
    TermsHoldIff(c, s);
    TotalFieldsHoldIff(f, s);
    BaseHoldsIffOverlap(f.startDate, f.endDate, Bindings(Terms(c, 2)), s);
  }

  /** With $1 and $2 bound to the period, the fixed part of the WHERE is the overlap test. */
  lemma BaseHoldsIffOverlap(periodStart: Date, periodEnd: Date, rest: seq<Arg>, s: Subscription)
    ensures BaseHolds([DateArg(periodStart), DateArg(periodEnd)] + rest, s) <==> OverlapsPeriod(s, periodStart, periodEnd)
  {
    var args := [DateArg(periodStart), DateArg(periodEnd)] + rest;
    assert args[0] == DateArg(periodStart) && args[1] == DateArg(periodEnd);
  }

  /** The optional part is appended, after " AND ", only when the user or the service is given. */
  lemma TotalBaseOnlyWithoutOptionalFields(f: TotalCostFilter)
    ensures TotalQueryText(f) == TotalSelect <==> f.userId.None? && f.serviceName.None?
  {
    var c := TotalCostQuery(f);
    if f.userId.Some? || f.serviceName.Some? {
      TermsComplete(c, 2, if f.userId.Some? then UserIdColumn else ServiceNameColumn);
      assert |TotalQueryText(f)| > |TotalSelect|;
    } else {
      assert Terms(c, 2) == [];
    }
  }

  // The builders.

  /** Appending one term to a plan numbers it after the ones already there. */
  lemma AppendTerm(terms: seq<Term>, t: Term, first: nat)
    ensures Numbered(terms + [t], first) == Numbered(terms, first) + [Condition(t.column, t.comparison, first + |terms|)]
    ensures Bindings(terms + [t]) == Bindings(terms) + [t.arg]
    ensures RenderAll(Numbered(terms + [t], first)) == RenderAll(Numbered(terms, first)) + [Render(Condition(t.column, t.comparison, first + |terms|))]
  {
    assert (terms + [t])[..|terms|] == terms;
  }

  /** A present field adds its condition and its value, numbered after the earlier ones; an absent one adds nothing. */
  lemma AddStep(terms: seq<Term>, c: Criterion, col: Column, first: nat)
    ensures BoundOf(c, col).Some? ==>
              && RenderAll(Numbered(Add(terms, c, col), first))
                 == RenderAll(Numbered(terms, first)) + [Render(Condition(col, ComparisonOf(col), first + |terms|))]
              && Bindings(Add(terms, c, col)) == Bindings(terms) + [BoundOf(c, col).value]
    ensures BoundOf(c, col).None? ==> Add(terms, c, col) == terms
  {
    if BoundOf(c, col).Some? {
      AppendTerm(terms, Term(col, ComparisonOf(col), BoundOf(c, col).value), first);
    }
  }

  /** Binding after a prefix of earlier values: the next placeholder is one past all of them. */
  lemma NextPlaceholder(prefix: seq<Arg>, terms: seq<Term>, a: Arg)
    ensures |prefix + Bindings(terms)| == |prefix| + |terms|
    ensures (prefix + Bindings(terms)) + [a] == prefix + (Bindings(terms) + [a])
  {
    assert |Bindings(terms)| == |terms|;
  }

  /**
   * `conditions = append(conditions, fmt.Sprintf("<column> <op> $%d", len(args)+1))`
   * then `args = append(args, value)`, when the column's field is present.
   */
  method AddCondition(conditions: seq<string>, args: seq<Arg>, c: Criterion, col: Column,
                      ghost terms: seq<Term>, ghost prefix: seq<Arg>, ghost first: nat)
    returns (conditions': seq<string>, args': seq<Arg>)
    requires first == |prefix| + 1
    requires conditions == RenderAll(Numbered(terms, first)) && args == prefix + Bindings(terms)
    ensures conditions' == RenderAll(Numbered(Add(terms, c, col), first))
    ensures args' == prefix + Bindings(Add(terms, c, col))
  {
    AddStep(terms, c, col, first);
    var bound := BoundOf(c, col);
    if bound.Some? {
      NextPlaceholder(prefix, terms, bound.value);
      conditions' := conditions + [Render(Condition(col, ComparisonOf(col), |args| + 1))];
      args' := args + [bound.value];
    } else {
      conditions', args' := conditions, args;
    }
  }

  /** GetListOfSubscriptions' query assembly: one condition and one value per present field. */
  method BuildListQuery(f: SubscriptionFilter) returns (query: string, args: seq<Arg>)
    ensures query == ListQueryText(f)
    ensures args == ListArgs(f)
  {
    var c := ListQuery(f);
    query := ListSelect;
    var conditions: seq<string> := [];
    args := [];
    ghost var terms: seq<Term> := [];
    conditions, args := AddCondition(conditions, args, c, UserIdColumn, terms, [], 1);
    terms := Add(terms, c, UserIdColumn);
    assert terms == Terms(c, 1);
    conditions, args := AddCondition(conditions, args, c, ServiceNameColumn, terms, [], 1);
    terms := Add(terms, c, ServiceNameColumn);
    assert terms == Terms(c, 2);
    conditions, args := AddCondition(conditions, args, c, PriceColumn, terms, [], 1);
    terms := Add(terms, c, PriceColumn);
    assert terms == Terms(c, 3);
    conditions, args := AddCondition(conditions, args, c, StartDateColumn, terms, [], 1);
    terms := Add(terms, c, StartDateColumn);
    assert terms == Terms(c, 4);
    conditions, args := AddCondition(conditions, args, c, EndDateColumn, terms, [], 1);
    terms := Add(terms, c, EndDateColumn);
    assert terms == Terms(c, 5);
    assert conditions == RenderAll(ListConditions(f)) && |conditions| == |ListConditions(f)|;
    if |conditions| > 0 {
      query := query + (" WHERE " + Join(conditions, " AND "));
    }
  }

  /** GetTotalCost's query assembly: the period as $1 and $2, then the optional equalities. */
  method BuildTotalCostQuery(f: TotalCostFilter) returns (query: string, args: seq<Arg>)
    ensures query == TotalQueryText(f)
    ensures args == TotalArgs(f)
  {
    var c := TotalCostQuery(f);
    query := TotalSelect;
    args := [DateArg(f.startDate), DateArg(f.endDate)];
    ghost var period := args;
    var conditions: seq<string> := [];
    ghost var terms: seq<Term> := [];
    conditions, args := AddCondition(conditions, args, c, UserIdColumn, terms, period, 3);
    terms := Add(terms, c, UserIdColumn);
    assert terms == Terms(c, 1);
    conditions, args := AddCondition(conditions, args, c, ServiceNameColumn, terms, period, 3);
    terms := Add(terms, c, ServiceNameColumn);
    assert terms == Terms(c, 2);
    if |conditions| > 0 {
      query := query + (" AND " + Join(conditions, " AND "));
    }
  }
}
