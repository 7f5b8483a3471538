/** Items sent in groups with a pause after each group, and such sequences repeated: the exact counting. */
module Pacing {

  datatype Effect<T> = Attempt(item: T) | Pause(nanoseconds: int)

  /** Without any counter: after item number n there is a pause iff the group size divides n. */
  function Paced<T>(items: seq<T>, g: nat, nanoseconds: int): seq<Effect<T>>
    requires g > 0
  {
    if |items| == 0 then [] else
    Paced(items[..|items| - 1], g, nanoseconds) + [Attempt(items[|items| - 1])]
    + (if |items| % g == 0 then [Pause(nanoseconds)] else [])
  }

  // ---------- division ----------

  lemma DivMod(n: nat, g: nat, q: nat, r: nat)
    requires g > 0 && n == q * g + r && r < g
    ensures n / g == q && n % g == r
  {
    var d := n / g - q;
    assert d * g == r - n % g by { assert (n / g - q) * g == (n / g) * g - q * g; }
    Bounded(d, g);
  }

  lemma Bounded(d: int, g: nat)
    requires -(g as int) < d * g < g
    ensures d == 0
  {
  }

  lemma Next(n: nat, g: nat)
    requires g > 0
    ensures (n + 1) % g == if n % g + 1 == g then 0 else n % g + 1
    ensures (n + 1) / g == n / g + (if (n + 1) % g == 0 then 1 else 0)
  {
    var q, r := n / g, n % g;
    if r + 1 == g {
      assert (q + 1) * g == q * g + g;
      DivMod(n + 1, g, q + 1, 0);
    } else {
      DivMod(n + 1, g, q, r + 1);
    }
  }

  lemma DivAdd(a: nat, b: nat, g: nat)
    requires g > 0
    ensures a * g + b >= 0 && (a * g + b) / g == a + b / g
    ensures b / g == 0 <==> b < g
  {
    var q, r := b / g, b % g;
    assert (a + q) * g == a * g + q * g;
    DivMod(a * g + b, g, a + q, r);
    if b < g { DivMod(b, g, 0, b); }
  }

  /** Pause j is either among those of n - 1 items, or is the last effect that n items have. */
  lemma Boundary(n: nat, g: nat, j: nat, at: nat)
    requires g > 0 && n > 0 && 1 <= j <= n / g && at == j * g + j - 1
    ensures j <= (n - 1) / g || (n % g == 0 && at == n + (n - 1) / g)
  {
    Next(n - 1, g);
    if j > (n - 1) / g { assert n == (n / g) * g + n % g; }
  }

  // ---------- where everything ends up ----------

  lemma {:induction false} PacedLength<T>(items: seq<T>, g: nat, nanoseconds: int)
    requires g > 0
    ensures |Paced(items, g, nanoseconds)| == |items| + |items| / g
  {
    if |items| > 0 {
      PacedLength(items[..|items| - 1], g, nanoseconds);
      Next(|items| - 1, g);
    } else {
      DivMod(0, g, 0, 0);
    }
  }

  /** Item number k + 1 is attempted right behind the k items and k / g pauses before it. */
  lemma {:induction false} ItemAt<T>(items: seq<T>, g: nat, nanoseconds: int, k: nat)
    requires g > 0 && k < |items|
    ensures k + k / g < |Paced(items, g, nanoseconds)| && Paced(items, g, nanoseconds)[k + k / g] == Attempt(items[k])
  {
    var init := items[..|items| - 1];
    PacedLength(init, g, nanoseconds);
    if k < |init| { ItemAt(init, g, nanoseconds, k); }
  }

  /** Pause number j comes right behind item number j * g. */
  lemma {:induction false} PauseAt<T>(items: seq<T>, g: nat, nanoseconds: int, j: nat, at: nat)
    requires g > 0 && 1 <= j <= |items| / g && at == j * g + j - 1
    ensures at < |Paced(items, g, nanoseconds)| && Paced(items, g, nanoseconds)[at] == Pause(nanoseconds)
  {
    var init := items[..|items| - 1];
    PacedLength(init, g, nanoseconds);
    Boundary(|items|, g, j, at);
    if j <= |init| / g { PauseAt(init, g, nanoseconds, j, at); }
  }

  /** Exact pacing: with n items and group size g the trace has n + n / g effects, the attempts in order each at its
      place, and the pauses behind items g, 2g and so on. */
  lemma {:induction false} ExactPacing<T>(items: seq<T>, g: nat, nanoseconds: int, k: nat, j: nat, at: nat)
    requires g > 0 && at == j * g + j - 1
    ensures var t, n := Paced(items, g, nanoseconds), |items|;
            && |t| == n + n / g
            && (k < n ==> k + k / g < |t| && t[k + k / g] == Attempt(items[k]))
            && (1 <= j <= n / g ==> at < |t| && t[at] == Pause(nanoseconds))
  {
    PacedLength(items, g, nanoseconds);
    if k < |items| { ItemAt(items, g, nanoseconds, k); }
    if 1 <= j <= |items| / g { PauseAt(items, g, nanoseconds, j, at); }
  }

  lemma SameQuotient(n: nat, g: nat, k: nat)
    requires g > 0 && (n / g) * g <= k < n
    ensures k / g == n / g
  {
    DivMod(k, g, n / g, k - (n / g) * g);
  }

  /** Behind the last pause there are n mod g effects, all attempts: those of the last n mod g items, in order. */
  lemma {:induction false} Trailing<T>(items: seq<T>, g: nat, nanoseconds: int, k: nat)
    requires g > 0 && (|items| / g) * g <= k < |items|
    ensures var t, n := Paced(items, g, nanoseconds), |items|;
            && |t| == n + n / g && n - (n / g) * g == n % g
            && k + n / g < |t| && t[k + n / g] == Attempt(items[k])
  {
    SameQuotient(|items|, g, k);
    PacedLength(items, g, nanoseconds);
    ItemAt(items, g, nanoseconds, k);
  }

  // ---------- counting over repetitions ----------

  function Attempts<T>(t: seq<Effect<T>>): (n: nat)
    ensures n <= |t|
  {
    if |t| == 0 then 0 else Attempts(t[..|t| - 1]) + (if t[|t| - 1].Attempt? then 1 else 0)
  }

  function Pauses<T>(t: seq<Effect<T>>): nat { |t| - Attempts(t) }

  lemma {:induction false} AttemptsSnoc<T>(t: seq<Effect<T>>, e: Effect<T>)
    ensures Attempts(t + [e]) == Attempts(t) + if e.Attempt? then 1 else 0
  {
  }

  lemma {:induction false} AttemptsAdd<T>(a: seq<Effect<T>>, b: seq<Effect<T>>)
    ensures Attempts(a + b) == Attempts(a) + Attempts(b)
  {
    if |b| == 0 {
      assert a + b == a;
    } else {
      var init, last := b[..|b| - 1], b[|b| - 1];
      assert a + b == (a + init) + [last] && b == init + [last];
      AttemptsAdd(a, init);
      AttemptsSnoc(a + init, last);
      AttemptsSnoc(init, last);
    }
  }

  lemma {:induction false} PacedAttempts<T>(items: seq<T>, g: nat, nanoseconds: int)
    requires g > 0
    ensures Attempts(Paced(items, g, nanoseconds)) == |items|
  {
    if |items| > 0 {
      var init, last := Paced(items[..|items| - 1], g, nanoseconds), Attempt(items[|items| - 1]);
      PacedAttempts(items[..|items| - 1], g, nanoseconds);
      AttemptsSnoc(init, last);
      AttemptsSnoc(init + [last], Pause(nanoseconds));
      assert init + [last] + [] == init + [last];
    }
  }

  function Repeat<T>(t: seq<T>, times: nat): seq<T> { if times == 0 then [] else Repeat(t, times - 1) + t }

  lemma {:induction false} RepeatLength<T>(t: seq<T>, times: nat)
    ensures |Repeat(t, times)| == times * |t|
  {
    if times > 0 {
      RepeatLength(t, times - 1);
      Multiply(times, |t|);
    }
  }

  /** Repetition q + 1 is the sequence once more, behind q whole sequences. */
  lemma {:induction false} RepeatAt<T>(t: seq<T>, times: nat, q: nat, x: nat, at: nat)
    requires q < times && x < |t| && at == q * |t| + x
    ensures at < |Repeat(t, times)| && Repeat(t, times)[at] == t[x]
  {
    RepeatLength(t, times - 1);
    if q < times - 1 { RepeatAt(t, times - 1, q, x, at); }
  }

  lemma {:induction false} RepeatCounts<T>(t: seq<Effect<T>>, r: nat)
    ensures Attempts(Repeat(t, r)) == r * Attempts(t) && Pauses(Repeat(t, r)) == r * Pauses(t)
  {
    if r > 0 {
      RepeatCounts(t, r - 1);
      AttemptsAdd(Repeat(t, r - 1), t);
      Multiply(r, Attempts(t));
      Multiply(r, Pauses(t));
    }
  }

  lemma Multiply(r: nat, n: nat)
    requires r > 0
    ensures r * n == (r - 1) * n + n
  {
  }

  /** r repetitions attempt r * n items and pause r * (n / g) times. The counter starts afresh with every sequence, so
      that is at most the (r * n) / g pauses of one long sequence, and as many exactly when all the left-over items
      together do not fill a group. */
  lemma {:induction false} RepetitionCounts<T>(items: seq<T>, g: nat, nanoseconds: int, r: nat)
    requires g > 0
    ensures var t, n := Repeat(Paced(items, g, nanoseconds), r), |items|;
            && Attempts(t) == r * n && Pauses(t) == r * (n / g)
            && r * (n / g) <= (r * n) / g
            && (r * (n / g) == (r * n) / g <==> r * (n % g) < g)
  {
    RepeatCounts(Paced(items, g, nanoseconds), r);
    PacedAttempts(items, g, nanoseconds);
    PacedLength(items, g, nanoseconds);
    LeftOvers(r, |items|, g);
  }

  lemma LeftOvers(r: nat, n: nat, g: nat)
    requires g > 0
    ensures r * (n / g) <= (r * n) / g
    ensures r * (n / g) == (r * n) / g <==> r * (n % g) < g
  {
    var a, b := SplitProduct(r, n, g);
    DivAdd(a, b, g);
  }

  lemma SplitProduct(r: nat, n: nat, g: nat) returns (a: nat, b: nat)
    requires g > 0
    ensures a == r * (n / g) && b == r * (n % g) && r * n == a * g + b
  {
    var q, m := n / g, n % g;
    a, b := r * q, r * m;
    assert r * (q * g + m) == r * (q * g) + r * m;
    assert r * (q * g) == (r * q) * g;
  }
}
