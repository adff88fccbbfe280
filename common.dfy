/** Shared vocabulary of the model: Python's None, the HTTP error outcome of a
    FastAPI handler, Python's truthiness of strings, `str(n)` for the integer
    primary keys, and the two ORM idioms the routers rely on:
    `query(...).filter(...).first()` and "rows owned by a company". */
module Common {

  datatype Option<+T> = None | Some(value: T)

  /** An `HTTPException`: a status code and its detail message. */
  datatype HttpError = HttpError(status: int, detail: string)

  /** What a handler produces: a response body or an HTTP error. */
  datatype Result<+T> = Ok(value: T) | Err(error: HttpError)

  /** The failure FastAPI reports for an exception the handler does not catch. */
  const InternalServerError := HttpError(500, "Internal Server Error")

  /** Python truthiness of an optional string: both None and "" are falsy. */
  predicate Truthy(s: Option<string>)
  {
    s.Some? && s.value != ""
  }

  /** The `x or []` idiom on a nullable JSON list column. */
  function OrEmpty<T>(xs: Option<seq<T>>): seq<T>
  {
    if xs.Some? then xs.value else []
  }

  // ---------------------------------------------------------------- str(int)

  predicate IsDigit(c: char)
  {
    '0' <= c <= '9'
  }

  predicate AllDigits(s: string)
  {
    forall i :: 0 <= i < |s| ==> IsDigit(s[i])
  }

  function DigitChar(d: nat): (c: char)
    requires d < 10
    ensures IsDigit(c) && c as int - '0' as int == d
  {
    ('0' as int + d) as char
  }

  function DigitValue(c: char): (d: nat)
    requires IsDigit(c)
    ensures d < 10
  {
    c as int - '0' as int
  }

  /** Python's `str(n)` for a non-negative int: its decimal digits, most
      significant first, with no leading zero. */
  function NatToString(n: nat): (s: string)
    ensures |s| > 0 && AllDigits(s)
    ensures |s| > 1 ==> s[0] != '0'
  {
    if n < 10 then [DigitChar(n)] else NatToString(n / 10) + [DigitChar(n % 10)]
  }

  /** Python's `int(s)` on a string of decimal digits. */
  function ParseNat(s: string): nat
    requires AllDigits(s)
  {
    if |s| == 0 then 0 else ParseNat(s[..|s| - 1]) * 10 + DigitValue(s[|s| - 1])
  }

  /** `int(str(n)) == n`: reading back the decimal form gives the number. */
  lemma {:induction false} ParseNatToString(n: nat)
    ensures ParseNat(NatToString(n)) == n
  {
    var s := NatToString(n);
    if n >= 10 {
      ParseNatToString(n / 10);
      assert s[..|s| - 1] == NatToString(n / 10);
    }
  }

  /** Distinct primary keys have distinct decimal forms. */
  lemma NatToStringInjective(m: nat, n: nat)
    ensures NatToString(m) == NatToString(n) <==> m == n
  {
    ParseNatToString(m);
    ParseNatToString(n);
  }

  // ---------------------------------------------------------- ORM idioms

  /** `query(...).filter(p).first()` on a table held in insertion order: the
      index of the first row that satisfies `p`, or None. */
  function FirstIndex<T>(s: seq<T>, p: T -> bool): (r: Option<nat>)
    ensures r.Some? ==> r.value < |s| && p(s[r.value])
    ensures r.Some? ==> forall j :: 0 <= j < r.value ==> !p(s[j])
    ensures r.None? <==> forall j :: 0 <= j < |s| ==> !p(s[j])
  {
    if |s| == 0 then None
    else if p(s[0]) then Some(0)
    else match FirstIndex(s[1..], p)
      case None => None
      case Some(k) => Some(k + 1)
  }

  /** When at most one row satisfies `p`, `first()` finds exactly that row. */
  lemma FirstIndexOfUnique<T>(s: seq<T>, p: T -> bool, i: nat)
    requires i < |s| && p(s[i])
    requires forall j :: 0 <= j < |s| && j != i ==> !p(s[j])
    ensures FirstIndex(s, p) == Some(i)
  {
  }

  /** The number of rows of `s` whose owner key is `id`. */
  function CountOwned<T>(s: seq<T>, owner: T -> nat, id: nat): (n: nat)
    ensures n <= |s|
  {
    if |s| == 0 then 0
    else (if owner(s[0]) == id then 1 else 0) + CountOwned(s[1..], owner, id)
  }

  lemma {:induction false} CountOwnedAppend<T>(s: seq<T>, x: T, owner: T -> nat, id: nat)
    ensures CountOwned(s + [x], owner, id) == CountOwned(s, owner, id) + (if owner(x) == id then 1 else 0)
  {
    if |s| > 0 {
      assert (s + [x])[1..] == s[1..] + [x];
      CountOwnedAppend(s[1..], x, owner, id);
    }
  }

  lemma {:induction false} CountOwnedNone<T>(s: seq<T>, owner: T -> nat, id: nat)
    requires forall j :: 0 <= j < |s| ==> owner(s[j]) != id
    ensures CountOwned(s, owner, id) == 0
  {
    if |s| > 0 {
      CountOwnedNone(s[1..], owner, id);
    }
  }

  /** Rows that keep their owner key keep every company's count. */
  lemma {:induction false} CountOwnedSameOwners<T>(s: seq<T>, s': seq<T>, owner: T -> nat, id: nat)
    requires |s| == |s'|
    requires forall j :: 0 <= j < |s| ==> owner(s[j]) == owner(s'[j])
    ensures CountOwned(s, owner, id) == CountOwned(s', owner, id)
  {
    if |s| > 0 {
      CountOwnedSameOwners(s[1..], s'[1..], owner, id);
    }
  }

  /** The rows that survive deleting owner `id`. */
  function RemoveOwned<T>(s: seq<T>, owner: T -> nat, id: nat): (r: seq<T>)
    ensures |r| <= |s|
    ensures forall j :: 0 <= j < |r| ==> r[j] in s && owner(r[j]) != id
    ensures forall j :: 0 <= j < |s| && owner(s[j]) != id ==> s[j] in r
  {
    if |s| == 0 then []
    else if owner(s[0]) == id then RemoveOwned(s[1..], owner, id)
    else [s[0]] + RemoveOwned(s[1..], owner, id)
  }

  /** Deleting one owner's rows leaves every other owner's count unchanged,
      and leaves nothing of the deleted owner. */
  lemma {:induction false} CountRemoveOwned<T>(s: seq<T>, owner: T -> nat, gone: nat, id: nat)
    ensures CountOwned(RemoveOwned(s, owner, gone), owner, id) == if id == gone then 0 else CountOwned(s, owner, id)
  {
    if |s| > 0 {
      CountRemoveOwned(s[1..], owner, gone, id);
      if owner(s[0]) != gone {
        assert ([s[0]] + RemoveOwned(s[1..], owner, gone))[1..] == RemoveOwned(s[1..], owner, gone);
      }
    }
  }
}
