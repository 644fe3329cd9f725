/** Parameterised SQL as the list handlers build it: a statement is text with numbered
    placeholders `$1, $2, ...`, sent with an array of parameters, and `$k` stands for
    `params[k-1]`. A statement is a sequence of pieces, literal text or a placeholder;
    binding it puts the parameter each placeholder refers to in its place. */
module Sql {
  import opened Js
  import opened Decimal

  /** A parameter: a query-string value, a number from `parseInt`, or `NaN`. */
  datatype Value = Str(s: string) | Int(n: int) | NaN

  datatype Piece = Lit(text: string) | Placeholder(index: nat)

  datatype Query = Query(sql: seq<Piece>, params: seq<Value>)

  /** A piece of a bound statement; `Dangling(k)` is a `$k` with no `params[k-1]`. */
  datatype Bound = Code(text: string) | Inline(value: Value) | Dangling(index: nat)

  /** The placeholder numbers, in the order they occur. */
  function Placeholders(sql: seq<Piece>): seq<nat> {
    if sql == [] then []
    else (if sql[0].Placeholder? then [sql[0].index] else []) + Placeholders(sql[1..])
  }

  /** The placeholders are `$1, ..., $n` in this order, where n is the number of parameters. */
  predicate WellNumbered(q: Query) {
    Placeholders(q.sql) == seq(|q.params|, i => i + 1)
  }

  function BindPiece(p: Piece, params: seq<Value>): Bound {
    match p
    case Lit(t) => Code(t)
    case Placeholder(k) => if 1 <= k <= |params| then Inline(params[k - 1]) else Dangling(k)
  }

  /** The statement with each `$k` replaced by `params[k-1]`. */
  function Bind(q: Query): (b: seq<Bound>)
    ensures |b| == |q.sql|
  {
    seq(|q.sql|, i requires 0 <= i < |q.sql| => BindPiece(q.sql[i], q.params))
  }

  /** `parseInt(limit)` on `searchParams.get('limit') || '50'`. */
  function LimitParam(limit: Option<string>): (v: Value)
    ensures !Truthy(limit) ==> v == Int(50)
    ensures Truthy(limit) && ParseNat(limit.value).Some? ==> v == Int(ParseNat(limit.value).value)
  {
    DecRoundTrip(50);
    var text := Or(limit, Dec(50));
    match ParseNat(text)
    case Some(n) => Int(n)
    case None => NaN
  }

  lemma {:induction false} PlaceholdersAppend(a: seq<Piece>, b: seq<Piece>)
    ensures Placeholders(a + b) == Placeholders(a) + Placeholders(b)
  {
    if a != [] {
      assert (a + b)[0] == a[0] && (a + b)[1..] == a[1..] + b;
      PlaceholdersAppend(a[1..], b);
      var h := if a[0].Placeholder? then [a[0].index] else [];
      assert Placeholders(a + b) == h + (Placeholders(a[1..]) + Placeholders(b));
      assert Placeholders(a) == h + Placeholders(a[1..]);
    } else {
      assert a + b == b;
    }
  }

  lemma {:induction false} PlaceholderOccurs(sql: seq<Piece>, i: nat)
    requires i < |sql| && sql[i].Placeholder?
    ensures sql[i].index in Placeholders(sql)
  {
    if i > 0 {
      PlaceholderOccurs(sql[1..], i - 1);
    }
  }

  /** In a well-numbered statement every placeholder has its parameter. */
  lemma WellNumberedBindsAll(q: Query)
    requires WellNumbered(q)
    ensures forall i :: 0 <= i < |q.sql| ==> !Bind(q)[i].Dangling?
  {
    forall i | 0 <= i < |q.sql|
      ensures !Bind(q)[i].Dangling?
    {
      if q.sql[i].Placeholder? {
        PlaceholderOccurs(q.sql, i);
      }
    }
  }

  /** Adding parameters does not change what the existing placeholders of a well-numbered
      statement stand for. */
  lemma BindExtend(q: Query, sql: seq<Piece>, params: seq<Value>)
    requires WellNumbered(q)
    ensures Bind(Query(q.sql + sql, q.params + params))[..|q.sql|] == Bind(q)
  {
    WellNumberedBindsAll(q);
    var b := Bind(Query(q.sql + sql, q.params + params));
    forall i | 0 <= i < |q.sql|
      ensures b[i] == Bind(q)[i]
    {
      assert (q.sql + sql)[i] == q.sql[i];
    }
  }

  /** `sql += text`. */
  function AddText(q: Query, text: string): Query {
    Query(q.sql + [Lit(text)], q.params)
  }

  /** `sql += text + '$' + k; params.push(v)` with k the number of the new parameter. */
  function AddFilter(q: Query, text: string, v: Value): Query {
    Query(q.sql + [Lit(text), Placeholder(|q.params| + 1)], q.params + [v])
  }

  /** `sql` and `params` so far are well numbered and bind to `want`. */
  ghost predicate Builds(sql: seq<Piece>, params: seq<Value>, want: seq<Bound>) {
    WellNumbered(Query(sql, params)) && Bind(Query(sql, params)) == want
  }

  lemma StartBuild(text: string)
    ensures Builds([Lit(text)], [], [Code(text)])
  {
    assert Placeholders([Lit(text)]) == [] + Placeholders([]);
  }

  /** `sql += text + '$' + paramIndex; params.push(v); paramIndex++`, with `paramIndex` one
      more than the number of parameters. */
  lemma PushFilter(sql: seq<Piece>, params: seq<Value>, want: seq<Bound>, text: string, v: Value)
    requires Builds(sql, params, want)
    ensures Builds(sql + [Lit(text), Placeholder(|params| + 1)], params + [v],
                   want + [Code(text), Inline(v)])
  {
    AddFilterSpec(Query(sql, params), text, v);
  }

  /** `sql += text`. */
  lemma PushText(sql: seq<Piece>, params: seq<Value>, want: seq<Bound>, text: string)
    requires Builds(sql, params, want)
    ensures Builds(sql + [Lit(text)], params, want + [Code(text)])
  {
    AddTextSpec(Query(sql, params), text);
  }

  /** ` AND <column> = <value>` when the value is present (truthy), nothing otherwise. */
  function Condition(text: string, v: Option<string>): seq<Bound> {
    if Truthy(v) then [Code(text), Inline(Str(v.value))] else []
  }

  lemma AddTextSpec(q: Query, text: string)
    requires WellNumbered(q)
    ensures WellNumbered(AddText(q, text))
    ensures Bind(AddText(q, text)) == Bind(q) + [Code(text)]
  {
    PlaceholdersAppend(q.sql, [Lit(text)]);
    BindExtend(q, [Lit(text)], []);
    assert q.params + [] == q.params;
  }

  /** Appending a filter whose placeholder is one more than the parameter count keeps the
      numbering and binds the new placeholder to the new parameter. */
  lemma AddFilterSpec(q: Query, text: string, v: Value)
    requires WellNumbered(q)
    ensures WellNumbered(AddFilter(q, text, v))
    ensures Bind(AddFilter(q, text, v)) == Bind(q) + [Code(text), Inline(v)]
  {
    var q' := AddFilter(q, text, v);
    PlaceholdersAppend(q.sql, [Lit(text), Placeholder(|q.params| + 1)]);
    var added := [Lit(text), Placeholder(|q.params| + 1)];
    assert added[1..] == [Placeholder(|q.params| + 1)] && added[1..][1..] == [];
    assert Placeholders(added[1..]) == [|q.params| + 1] + Placeholders([]);
    assert Placeholders(added) == [] + Placeholders(added[1..]);
    assert Placeholders(q'.sql) == seq(|q'.params|, i => i + 1);
    BindExtend(q, [Lit(text), Placeholder(|q.params| + 1)], [v]);
    var b := Bind(q');
    assert b[|q.sql|] == Code(text);
    assert b[|q.sql| + 1] == Inline(v);
    assert b == b[..|q.sql|] + [b[|q.sql|], b[|q.sql| + 1]];
  }
}
