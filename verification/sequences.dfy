module Sequences {
  lemma Append<T>(a: seq<T>, b: seq<T>, c: seq<T>)
    ensures (a + b) + c == a + (b + c)
  {
  }

  // Two steps that each pass what went in on to what came out do so together.
  lemma Regroup<T>(a: seq<T>, b: seq<T>, c: seq<T>, d: seq<T>, e: seq<T>, f: seq<T>, g: seq<T>)
    requires a + b == c + d && e + f == b + g
    ensures (a + e) + f == c + (d + g)
  {
    Append(a, e, f);
    Append(a, b, g);
    Append(c, d, g);
  }
}
