/** The JavaScript values that flow through the router: JSON request bodies,
    query-string parameters, result rows, and the two coercions the server
    applies to them, truthiness (`x ? … : …`, `!x`, `||`) and string
    conversion (concatenation with a string, template interpolation). */
module Values {
  import opened Strings

  datatype Option<+T> = None | Some(value: T)

  /** A scalar JSON value, a parameter bound into a statement, or a column
      value of a result row. Fractional numbers, arrays and blobs are not
      modelled; `Object` stands for any nested object. */
  datatype Value = Null | Bool(b: bool) | Num(n: int) | Str(s: string) | Object

  /** JavaScript truthiness; `None` is `undefined`. */
  predicate Truthy(v: Option<Value>) {
    match v
    case None => false
    case Some(Null) => false
    case Some(Bool(b)) => b
    case Some(Num(n)) => n != 0
    case Some(Str(s)) => s != ""
    case Some(Object) => true
  }

  function DigitChar(d: nat): (c: char)
    requires d < 10
    ensures '0' <= c <= '9'
  {
    "0123456789"[d]
  }

  /** Decimal text of a natural number, as JavaScript writes an integer. */
  function NatToString(n: nat): (r: string)
    ensures r != [] && '0' <= r[0] <= '9'
  {
    if n < 10 then [DigitChar(n)] else NatToString(n / 10) + [DigitChar(n % 10)]
  }

  function IntToString(i: int): (r: string)
    ensures r != [] && (r[0] == '-' || '0' <= r[0] <= '9')
  {
    if i < 0 then "-" + NatToString(-i) else NatToString(i)
  }

  /** JavaScript string conversion; `None` is `undefined`. */
  function JsString(v: Option<Value>): string {
    match v
    case None => "undefined"
    case Some(Null) => "null"
    case Some(Bool(b)) => if b then "true" else "false"
    case Some(Num(n)) => IntToString(n)
    case Some(Str(s)) => s
    case Some(Object) => "[object Object]"
  }

  /** An integer never prints as text that starts with a letter. */
  lemma NumberTextStartsWithDigitOrSign(n: int, p: string)
    requires p != [] && 'A' <= p[0] <= 'Z'
    ensures !StartsWith(JsString(Some(Num(n))), p)
  {
    var t := IntToString(n);
    assert t[0] != p[0];
  }

  // ---------------------------------------------------------------------------
  // Request bodies

  predicate Distinct(keys: seq<string>) {
    forall i, j :: 0 <= i < j < |keys| ==> keys[i] != keys[j]
  }

  /** A parsed JSON object: `keys` is `Object.keys(body)` in order, `values`
      holds the properties. */
  datatype Body = Body(keys: seq<string>, values: map<string, Value>) {
    predicate WellFormed() {
      Distinct(keys) && (forall k :: k in keys ==> k in values) && (forall k :: k in values ==> k in keys)
    }

    /** `body[k]`; `None` is `undefined`. */
    function Get(k: string): (v: Option<Value>)
      ensures v.Some? <==> k in values
      ensures k in values ==> v.value == values[k]
    {
      if k in values then Some(values[k]) else None
    }

    /** The object after deleting property `k`: the other keys stay, in
        their order, and `k` is gone from both keys and properties. */
    function Without(k: string): (r: Body)
      requires WellFormed()
      ensures r.WellFormed()
      ensures k !in r.keys && k !in r.values
      ensures forall x :: x in r.keys <==> x in keys && x != k
      ensures forall p :: 0 <= p < |keys| && keys[p] == k ==> r.keys == keys[..p] + keys[p + 1..]
      ensures r.values == values - {k}
      ensures k !in keys ==> r == this
    {
      assert forall p | 0 <= p < |keys| && keys[p] == k :: Drop(keys, k) == keys[..p] + keys[p + 1..] by {
        forall p | 0 <= p < |keys| && keys[p] == k ensures Drop(keys, k) == keys[..p] + keys[p + 1..] {
          DropKeepsOrder(keys, k, p);
        }
      }
      Body(Drop(keys, k), values - {k})
    }
  }

  /** `keys` with every `k` removed and the order of the others kept. */
  function Drop(keys: seq<string>, k: string): (r: seq<string>)
    ensures forall x :: x in r <==> x in keys && x != k
    ensures Distinct(keys) ==> Distinct(r)
    ensures |r| <= |keys|
    ensures k !in keys ==> r == keys
  {
    if keys == [] then []
    else if keys[0] == k then Drop(keys[1..], k)
    else
      var rest := Drop(keys[1..], k);
      assert Distinct(keys) ==> Distinct(keys[1..]) && keys[0] !in keys[1..] by {
        if Distinct(keys) {
          forall j | 0 <= j < |keys[1..]| ensures keys[1..][j] != keys[0] {
            assert keys[1..][j] == keys[j + 1];
          }
        }
      }
      assert keys == [keys[0]] + keys[1..];
      [keys[0]] + rest
  }

  /** Removing the one occurrence of `k` from distinct keys leaves the keys
      before it and the keys after it, in their order. */
  lemma {:induction false} DropKeepsOrder(keys: seq<string>, k: string, p: nat)
    requires Distinct(keys) && p < |keys| && keys[p] == k
    ensures Drop(keys, k) == keys[..p] + keys[p + 1..]
  {
    assert Distinct(keys[1..]) by {
      forall i, j | 0 <= i < j < |keys[1..]| ensures keys[1..][i] != keys[1..][j] {
        assert keys[1..][i] == keys[i + 1] && keys[1..][j] == keys[j + 1];
      }
    }
    if p == 0 {
      assert k !in keys[1..] by {
        forall j | 0 <= j < |keys[1..]| ensures keys[1..][j] != k {
          assert keys[1..][j] == keys[j + 1];
        }
      }
    } else {
      assert keys[0] != k;
      DropKeepsOrder(keys[1..], k, p - 1);
      assert keys[1..][..p - 1] == keys[1..p] && keys[1..][p..] == keys[p + 1..];
      assert keys[..p] == [keys[0]] + keys[1..p];
    }
  }

  // ---------------------------------------------------------------------------
  // Query strings

  /** The query-string parameters `order`, `limit` and `offset` the list
      route reads; `None` means the parameter is absent. */
  datatype Query = Query(order: Option<string>, limit: Option<string>, offset: Option<string>)

  /** The parameter is truthy: present and not the empty string. */
  predicate Given(p: Option<string>) {
    p.Some? && p.value != ""
  }

  /** A result row: column name to value, as the JSON object the engine gives. */
  type Row = map<string, Value>
}
