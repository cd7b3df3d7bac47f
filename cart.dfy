/**
 The two pure expressions of the checkout flow: the cart total
 `sum(i["price"] for i in cart)` (app.py:137, 146) and the order's item text
 `", ".join(i["name"] for i in cart)` (app.py:145).
 */
module Cart {
  import opened Records

  /** Sum of the line-item prices, added left to right as Python's sum does; 0 for []. */
  function Total(cart: seq<LineItem>): real
  {
    if cart == [] then 0.0 else Total(cart[..|cart| - 1]) + cart[|cart| - 1].price
  }

  /** The total of two carts placed one after the other is the sum of their totals. */
  lemma {:induction false} TotalConcat(a: seq<LineItem>, b: seq<LineItem>)
    ensures Total(a + b) == Total(a) + Total(b)
  {
    if b != [] {
      var n := |b| - 1;
      assert (a + b)[..|a + b| - 1] == a + b[..n];
      TotalConcat(a, b[..n]);
    } else {
      assert a + b == a;
    }
  }

  function Names(cart: seq<LineItem>): seq<string>
  {
    seq(|cart|, i requires 0 <= i < |cart| => cart[i].name)
  }

  /** `sep.join(parts)`: the parts in order with `sep` between neighbours. */
  function Join(parts: seq<string>, sep: string): string
  {
    if |parts| == 0 then ""
    else if |parts| == 1 then parts[0]
    else Join(parts[..|parts| - 1], sep) + sep + parts[|parts| - 1]
  }

  /** The Order.items text built from a cart. */
  function ItemsText(cart: seq<LineItem>): string
  {
    Join(Names(cart), ", ")
  }

  /** Where part k starts in `sep.join(parts)`: the lengths of the earlier parts, each followed by sep. */
  function Offset(parts: seq<string>, sep: string, k: nat): nat
    requires k <= |parts|
  {
    if k == 0 then 0 else Offset(parts, sep, k - 1) + |parts[k - 1]| + |sep|
  }

  lemma {:induction false} OffsetPrefix(parts: seq<string>, sep: string, n: nat, k: nat)
    requires k <= n <= |parts|
    ensures Offset(parts[..n], sep, k) == Offset(parts, sep, k)
  {
    if k > 0 {
      OffsetPrefix(parts, sep, n, k - 1);
    }
  }

  /** The joined text ends right after the last part: nothing is dropped or added at the end. */
  lemma {:induction false} JoinLength(parts: seq<string>, sep: string)
    requires |parts| > 0
    ensures |Join(parts, sep)| == Offset(parts, sep, |parts| - 1) + |parts[|parts| - 1]|
  {
    var n := |parts|;
    if n > 1 {
      var init := parts[..n - 1];
      JoinLength(init, sep);
      OffsetPrefix(parts, sep, n - 1, n - 2);
      assert init[n - 2] == parts[n - 2];
    }
  }

  lemma SliceOfLeft(x: string, y: string, a: nat, b: nat)
    requires a <= b <= |x|
    ensures (x + y)[a..b] == x[a..b]
  {
  }

  lemma SliceOfRight(x: string, y: string, a: nat, b: nat)
    requires |x| <= a <= b <= |x| + |y|
    ensures (x + y)[a..b] == y[a - |x|..b - |x|]
  {
  }

  /** The joined text is the joined prefix, the separator, and the last part. */
  lemma JoinLast(parts: seq<string>, sep: string)
    requires |parts| > 1
    ensures Join(parts, sep) == Join(parts[..|parts| - 1], sep) + (sep + parts[|parts| - 1])
    ensures |Join(parts[..|parts| - 1], sep)| + |sep| == Offset(parts, sep, |parts| - 1)
  {
    var n := |parts|;
    JoinLength(parts[..n - 1], sep);
    OffsetPrefix(parts, sep, n - 1, n - 2);
    assert parts[..n - 1][n - 2] == parts[n - 2];
  }

  /** Every part can be read back, in order, at its offset in the joined text. */
  lemma {:induction false} JoinPart(parts: seq<string>, sep: string, k: nat)
    requires k < |parts|
    ensures Offset(parts, sep, k) + |parts[k]| <= |Join(parts, sep)|
    ensures Join(parts, sep)[Offset(parts, sep, k)..Offset(parts, sep, k) + |parts[k]|] == parts[k]
  {
    var n := |parts|;
    if n > 1 {
      var init := parts[..n - 1];
      var o := Offset(parts, sep, k);
      JoinLast(parts, sep);
      if k == n - 1 {
        SliceOfRight(Join(init, sep), sep + parts[n - 1], o, o + |parts[k]|);
        assert (sep + parts[n - 1])[|sep|..] == parts[n - 1];
      } else {
        JoinPart(init, sep, k);
        OffsetPrefix(parts, sep, n - 1, k);
        assert init[k] == parts[k];
        SliceOfLeft(Join(init, sep), sep + parts[n - 1], o, o + |parts[k]|);
      }
    }
  }

  /** Exactly the separator stands between two neighbouring parts of the joined text. */
  lemma {:induction false} JoinSeparator(parts: seq<string>, sep: string, k: nat)
    requires k + 1 < |parts|
    ensures Offset(parts, sep, k + 1) <= |Join(parts, sep)|
    ensures Join(parts, sep)[Offset(parts, sep, k) + |parts[k]|..Offset(parts, sep, k + 1)] == sep
  {
    var n := |parts|;
    var init := parts[..n - 1];
    var a := Offset(parts, sep, k) + |parts[k]|;
    var b := Offset(parts, sep, k + 1);
    JoinLast(parts, sep);
    if k + 1 == n - 1 {
      SliceOfRight(Join(init, sep), sep + parts[n - 1], a, b);
      assert (sep + parts[n - 1])[..|sep|] == sep;
    } else {
      JoinSeparator(init, sep, k);
      OffsetPrefix(parts, sep, n - 1, k);
      OffsetPrefix(parts, sep, n - 1, k + 1);
      assert init[k] == parts[k];
      SliceOfLeft(Join(init, sep), sep + parts[n - 1], a, b);
    }
  }
}
