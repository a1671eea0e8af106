/** The field resolver: a chain `row.get(a1) or row.get(a2) or ... or default`
    evaluated the way Python evaluates `or`. */
module Resolver {
  import opened Cells

  /** One spreadsheet row: column name to cell. */
  type Row = map<string, Value>

  /** `row.get(key)`: None when the sheet has no such column. */
  function Get(row: Row, key: string): (v: Value)
    ensures key !in row ==> v == Missing
    ensures key in row ==> v == row[key]
  {
    if key in row then row[key] else Missing
  }

  /** Alias `i` is the first in the chain whose cell is truthy. */
  predicate FirstTruthyAt(row: Row, aliases: seq<string>, i: int) {
    && 0 <= i < |aliases|
    && Truthy(Get(row, aliases[i]))
    && forall j :: 0 <= j < i ==> !Truthy(Get(row, aliases[j]))
  }

  /** No alias in the chain has a truthy cell. */
  predicate NoneTruthy(row: Row, aliases: seq<string>) {
    forall j :: 0 <= j < |aliases| ==> !Truthy(Get(row, aliases[j]))
  }

  /** The value of the `or` chain: the first truthy operand, and otherwise
      the last operand, the default, whether or not the default is truthy. */
  function Resolve(row: Row, aliases: seq<string>, default: Value): (r: Value)
    ensures forall i :: FirstTruthyAt(row, aliases, i) ==> r == Get(row, aliases[i])
    ensures NoneTruthy(row, aliases) ==> r == default
    decreases |aliases|
  {
    if |aliases| == 0 then default
    else if Truthy(Get(row, aliases[0])) then Get(row, aliases[0])
    else
      var rest := Resolve(row, aliases[1..], default);
      assert forall i :: FirstTruthyAt(row, aliases, i) ==> FirstTruthyAt(row, aliases[1..], i - 1);
      rest
  }

  /** Exactly one of the two cases of `Resolve`'s contract applies. */
  lemma {:induction false} FirstTruthyOrNone(row: Row, aliases: seq<string>)
    ensures NoneTruthy(row, aliases) || exists i :: FirstTruthyAt(row, aliases, i)
    ensures forall i, j :: FirstTruthyAt(row, aliases, i) && FirstTruthyAt(row, aliases, j) ==> i == j
    ensures forall i :: FirstTruthyAt(row, aliases, i) ==> !NoneTruthy(row, aliases)
    decreases |aliases|
  {
    if |aliases| > 0 {
      if Truthy(Get(row, aliases[0])) {
        assert FirstTruthyAt(row, aliases, 0);
      } else {
        FirstTruthyOrNone(row, aliases[1..]);
        if !NoneTruthy(row, aliases[1..]) {
          var i :| FirstTruthyAt(row, aliases[1..], i);
          assert FirstTruthyAt(row, aliases, i + 1);
        }
      }
    }
  }

  /** Precedence: a truthy first alias decides the field, whatever the later
      aliases and the default hold. */
  lemma ResolvePrecedence(row: Row, other: Row, aliases: seq<string>, default: Value, otherDefault: Value)
    requires |aliases| > 0 && Truthy(Get(row, aliases[0]))
    requires Get(other, aliases[0]) == Get(row, aliases[0])
    ensures Resolve(row, aliases, default) == Resolve(other, aliases, otherDefault) == Get(row, aliases[0])
  {
    assert FirstTruthyAt(row, aliases, 0) && FirstTruthyAt(other, aliases, 0);
  }

  /** Fall-through: a falsy alias (absent, `''`, `0`) is skipped. */
  lemma ResolveFallthrough(row: Row, aliases: seq<string>, default: Value)
    requires |aliases| > 0 && !Truthy(Get(row, aliases[0]))
    ensures Resolve(row, aliases, default) == Resolve(row, aliases[1..], default)
  {
  }

  /** Columns outside the alias chain do not influence the field. */
  lemma {:induction false} ResolveReadsOnlyAliases(row: Row, other: Row, aliases: seq<string>, default: Value)
    requires forall j :: 0 <= j < |aliases| ==> Get(row, aliases[j]) == Get(other, aliases[j])
    ensures Resolve(row, aliases, default) == Resolve(other, aliases, default)
    decreases |aliases|
  {
    if |aliases| > 0 && !Truthy(Get(row, aliases[0])) {
      ResolveReadsOnlyAliases(row, other, aliases[1..], default);
    }
  }
}
