/** Store keys: fields joined with '-', and the parser that takes them apart again. */
module Keys {

  predicate HyphenFree(s: string) {
    '-' !in s
  }

  predicate AllHyphenFree(fields: seq<string>) {
    forall i :: 0 <= i < |fields| ==> HyphenFree(fields[i])
  }

  /** fmt.Sprintf("%s-...-%s", fields...) */
  function Join(fields: seq<string>): string
    requires fields != []
  {
    if |fields| == 1 then fields[0] else fields[0] + "-" + Join(fields[1..])
  }

  lemma JoinThree(a: string, b: string, c: string)
    ensures Join([a, b, c]) == a + "-" + b + "-" + c
  {
    assert [a, b, c][1..] == [b, c] && [b, c][1..] == [c];
    assert Join([b, c]) == b + "-" + c;
    assert a + "-" + (b + "-" + c) == a + "-" + b + "-" + c;
  }

  lemma JoinFour(a: string, b: string, c: string, d: string)
    ensures Join([a, b, c, d]) == a + "-" + b + "-" + c + "-" + d
  {
    assert [a, b, c, d][1..] == [b, c, d];
    JoinThree(b, c, d);
    assert a + "-" + (b + "-" + c + "-" + d) == a + "-" + b + "-" + c + "-" + d;
  }

  lemma JoinFive(a: string, b: string, c: string, d: string, e: string)
    ensures Join([a, b, c, d, e]) == a + "-" + b + "-" + c + "-" + d + "-" + e
  {
    assert [a, b, c, d, e][1..] == [b, c, d, e];
    JoinFour(b, c, d, e);
    assert a + "-" + (b + "-" + c + "-" + d + "-" + e) == a + "-" + b + "-" + c + "-" + d + "-" + e;
  }

  function Split(s: string): (fields: seq<string>)
    ensures fields != [] && AllHyphenFree(fields)
  {
    if s == "" then [""]
    else
      var rest := Split(s[1..]);
      if s[0] == '-' then [""] + rest else [[s[0]] + rest[0]] + rest[1..]
  }

  lemma {:induction false} SplitField(field: string, tail: string)
    requires HyphenFree(field)
    ensures Split(field) == [field]
    ensures Split(field + "-" + tail) == [field] + Split(tail)
  {
    if field == "" {
      assert (field + "-" + tail)[1..] == tail;
    } else {
      SplitField(field[1..], tail);
      assert (field + "-" + tail)[1..] == field[1..] + "-" + tail;
      assert [field[0]] + field[1..] == field;
    }
  }

  /** Exactly the hyphen-free field lists survive the round trip. */
  lemma {:induction false} SplitUndoesJoin(fields: seq<string>)
    requires fields != []
    ensures Split(Join(fields)) == fields <==> AllHyphenFree(fields)
  {
    if AllHyphenFree(fields) {
      SplitField(fields[0], if |fields| == 1 then "" else Join(fields[1..]));
      if |fields| > 1 {
        SplitUndoesJoin(fields[1..]);
      }
    }
  }

  /** Equal keys of hyphen-free fields come from equal fields, of the same number. */
  lemma JoinIsInjective(fields: seq<string>, fields': seq<string>)
    requires fields != [] && fields' != []
    requires AllHyphenFree(fields) && AllHyphenFree(fields')
    requires Join(fields) == Join(fields')
    ensures fields == fields'
  {
    SplitUndoesJoin(fields);
    SplitUndoesJoin(fields');
  }

  /** Keys that agree in all fields but one tell that field apart, hyphens or not. */
  lemma {:induction false} JoinTellsField(fields: seq<string>, fields': seq<string>, k: nat)
    requires k < |fields| == |fields'|
    requires forall i :: 0 <= i < |fields| && i != k ==> fields[i] == fields'[i]
    requires Join(fields) == Join(fields')
    ensures fields == fields'
  {
    if |fields| > 1 {
      var f, f', rest, rest' := fields[0], fields'[0], Join(fields[1..]), Join(fields'[1..]);
      assert (f + "-" + rest)[|f| + 1..] == rest && (f' + "-" + rest')[|f'| + 1..] == rest';
      if k == 0 {
        assert fields[1..] == fields'[1..];
        assert |f| == |f'|;
        assert f == (f + "-" + rest)[..|f|] && f' == (f' + "-" + rest')[..|f'|];
      } else {
        JoinTellsField(fields[1..], fields'[1..], k - 1);
        assert fields == [f] + fields[1..] && fields' == [f'] + fields'[1..];
      }
    }
  }
}
