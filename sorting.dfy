/** The two shapes in which the hospital list keeps its sort order: the domain
    `SortConfig` (a field and an `ASC`/`DESC` enum) and the table widget's
    `SortDescriptor` (a column and `"ascending"`/`"descending"`), with the
    conversions the search store applies between them and the `sort` request
    parameter built from the domain shape. */
module Sorting {

  import opened Wrappers

  /** The `SortDirection` enum of the domain model. */
  datatype SortDirection = Asc | Desc

  datatype SortConfig = SortConfig(field: string, direction: SortDirection)

  /** The direction strings of the table widget. */
  datatype UiSortDirection = Ascending | Descending

  datatype SortDescriptor = SortDescriptor(column: string, direction: UiSortDirection)

  /** The string values of the `SortDirection` enum members. They are defined
      outside the store, so the model takes them as a parameter. */
  datatype DirectionTokens = DirectionTokens(asc: string, desc: string) {

    function Token(d: SortDirection): string {
      match d
      case Asc => asc
      case Desc => desc
    }
  }

  /** The descriptor `setSortConfig` derives from a configuration. */
  function DescriptorOf(c: SortConfig): (d: SortDescriptor)
    ensures d.column == c.field
    ensures d.direction == Ascending <==> c.direction == Asc
    ensures d.direction == Descending <==> c.direction == Desc
  {
    SortDescriptor(c.field, if c.direction == Asc then Ascending else Descending)
  }

  /** The configuration `setSortDescriptor` derives from a descriptor. */
  function ConfigOf(d: SortDescriptor): (c: SortConfig)
    ensures c.field == d.column
    ensures c.direction == Asc <==> d.direction == Ascending
    ensures c.direction == Desc <==> d.direction == Descending
  {
    SortConfig(d.column, if d.direction == Ascending then Asc else Desc)
  }

  /** The two sort shapes describe the same order. */
  predicate InSync(c: SortConfig, d: SortDescriptor) {
    d == DescriptorOf(c)
  }

  /** The two conversions are mutually inverse, so deriving either shape from
      the other leaves the pair in sync, whichever side was set. */
  lemma ConversionsAreInverse(c: SortConfig, d: SortDescriptor)
    ensures ConfigOf(DescriptorOf(c)) == c
    ensures DescriptorOf(ConfigOf(d)) == d
    ensures InSync(c, d) <==> c == ConfigOf(d)
  {
  }

  /** The `sort` request parameter: `"<field>,<direction token>"`. */
  function SortString(c: SortConfig, tokens: DirectionTokens): string {
    c.field + "," + tokens.Token(c.direction)
  }

  /** Splits a string at its first comma, as a reader of the `sort`
      parameter does; `None` when there is no comma. */
  function SplitAtComma(s: string): (r: Option<(string, string)>)
    ensures r.Some? ==> s == r.value.0 + "," + r.value.1 && ',' !in r.value.0
    ensures r.None? <==> ',' !in s
  {
    if s == [] then None
    else if s[0] == ',' then Some(([], s[1..]))
    else match SplitAtComma(s[1..])
      case None => None
      case Some((f, t)) => Some(([s[0]] + f, t))
  }

  /** When the field name has no comma, the `sort` parameter can be read back
      into the field and the direction token it was built from. */
  lemma {:induction false} SortStringReadsBack(c: SortConfig, tokens: DirectionTokens)
    requires ',' !in c.field
    ensures SplitAtComma(SortString(c, tokens)) == Some((c.field, tokens.Token(c.direction)))
  {
    var s := SortString(c, tokens);
    var r := SplitAtComma(s);
    assert ',' in s by { assert s[|c.field|] == ','; }
    SplitIsUnique(s, r.value.0, r.value.1, c.field, tokens.Token(c.direction));
  }

  /** A string has only one split at a comma whose left part has no comma. */
  lemma SplitIsUnique(s: string, f1: string, t1: string, f2: string, t2: string)
    requires s == f1 + "," + t1 && ',' !in f1
    requires s == f2 + "," + t2 && ',' !in f2
    ensures f1 == f2 && t1 == t2
  {
    assert forall i :: 0 <= i < |f1| ==> s[i] == f1[i] && f1[i] != ',';
    assert forall i :: 0 <= i < |f2| ==> s[i] == f2[i] && f2[i] != ',';
    assert s[|f1|] == ',' && s[|f2|] == ',';
    assert |f1| == |f2|;
    assert f1 == s[..|f1|] && f2 == s[..|f2|];
    assert t1 == s[|f1| + 1..] && t2 == s[|f2| + 1..];
  }
}
