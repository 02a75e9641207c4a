/** The order of text columns, and of rows sorted by a timestamp and then by id. */
module Ordering {
  import opened Domain

  /** Bytewise order of two strings. */
  predicate TextLess(a: string, b: string) {
    if a == [] then b != []
    else if b == [] then false
    else if a[0] == b[0] then TextLess(a[1..], b[1..])
    else a[0] < b[0]
  }

  datatype Stamp = Stamp(at: int, id: Id)

  /** (a.at, a.id) < (b.at, b.id) */
  predicate Before(a: Stamp, b: Stamp) {
    a.at < b.at || (a.at == b.at && TextLess(a.id, b.id))
  }

  lemma {:induction false} TextTotal(a: string, b: string)
    ensures TextLess(a, b) || TextLess(b, a) || a == b
    ensures !(TextLess(a, b) && TextLess(b, a))
    ensures !TextLess(a, a)
  {
    if a != [] && b != [] && a[0] == b[0] {
      TextTotal(a[1..], b[1..]);
      assert a == [a[0]] + a[1..] && b == [b[0]] + b[1..];
    }
    if a != [] {
      TextTotal(a[1..], a[1..]);
    }
  }

  lemma {:induction false} TextTransitive(a: string, b: string, c: string)
    requires TextLess(a, b) && TextLess(b, c)
    ensures TextLess(a, c)
  {
    if a != [] && b != [] && c != [] && a[0] == b[0] && b[0] == c[0] {
      TextTransitive(a[1..], b[1..], c[1..]);
    }
  }

  lemma BeforeTotal(a: Stamp, b: Stamp)
    ensures Before(a, b) || Before(b, a) || a == b
    ensures !(Before(a, b) && Before(b, a))
    ensures !Before(a, a)
  {
    TextTotal(a.id, b.id);
    TextTotal(a.id, a.id);
  }

  lemma BeforeTransitive(a: Stamp, b: Stamp, c: Stamp)
    requires Before(a, b) && Before(b, c)
    ensures Before(a, c)
  {
    if a.at == b.at == c.at {
      TextTransitive(a.id, b.id, c.id);
    }
  }

  /** A finite nonempty set of stamps has an earliest member. */
  lemma {:induction false} Earliest(s: set<Stamp>) returns (m: Stamp)
    requires s != {}
    ensures m in s && forall x :: x in s && x != m ==> Before(m, x)
  {
    var x :| x in s;
    if s == {x} {
      m := x;
    } else {
      var y := Earliest(s - {x});
      BeforeTotal(x, y);
      if Before(x, y) {
        m := x;
        forall z | z in s && z != m ensures Before(m, z) {
          if z != y { BeforeTransitive(x, y, z); }
        }
      } else {
        m := y;
      }
    }
  }
}
