/** Client code of the jar, after CookieJar/main.swift: filling a jar with
    freshly baked cookies, moving cookies from one jar to another with a
    counter, and what a caller can conclude from the jar's contracts alone. */
module Demo {
  import opened Cookies

  /** The transfer loop: `count` times, take a cookie out of `source` and put
      it into `target`. Removing traps on an empty jar, so `count` may not
      exceed what `source` holds. */
  method MoveCookies(source: CookieJar, target: CookieJar, count: nat)
    requires source != target
    requires count <= |source.cookies|
    requires source.cookies !! target.cookies
    modifies source, target
    ensures source.cookies <= old(source.cookies)
    ensures |source.cookies| == old(|source.cookies|) - count
    ensures target.cookies == old(target.cookies) + (old(source.cookies) - source.cookies)
    ensures |target.cookies| == old(|target.cookies|) + count
    ensures count == old(|source.cookies|) ==>
              source.cookies == {} && target.cookies == old(target.cookies) + old(source.cookies)
  {
    var left: nat := count;
    while left > 0
      invariant left <= |source.cookies|
      invariant source.cookies <= old(source.cookies)
      invariant source.cookies !! target.cookies
      invariant target.cookies == old(target.cookies) + (old(source.cookies) - source.cookies)
      invariant |source.cookies| == old(|source.cookies|) - (count - left)
      invariant |target.cookies| == old(|target.cookies|) + (count - left)
    {
      var c := source.Remove();
      target.Insert(c.value);
      left := left - 1;
    }
  }

  /** Two cookies baked one after the other are different cookies, even
      when their flavors agree. */
  method BakeTwo(flavor: CookieFlavor, ids: IdSource) returns (c: Cookie, d: Cookie)
    requires ids.Valid()
    modifies ids
    ensures ids.Valid()
    ensures c.flavor == flavor && d.flavor == flavor
    ensures c != d
  {
    c := NewCookie(flavor, ids);
    d := NewCookie(flavor, ids);
  }

  /** Inserting a cookie into a new jar and taking one out gives back that
      very cookie and leaves the jar empty. */
  method InsertThenRemove(c: Cookie) returns (r: Option<Cookie>, left: nat)
    ensures r == Some(c)
    ensures left == 0
  {
    var jar := new CookieJar();
    jar.Insert(c);
    r := jar.Remove();
    left := jar.Quantity();
  }

  /** A new jar filled with four freshly baked cookies of the given flavors,
      each inserted in turn: being freshly baked, they are four distinct
      cookies even where flavors repeat. */
  method FillJar(ids: IdSource, f1: CookieFlavor, f2: CookieFlavor, f3: CookieFlavor, f4: CookieFlavor)
    returns (a: CookieJar, c1: Cookie, c2: Cookie, c3: Cookie, c4: Cookie)
    requires ids.Valid()
    modifies ids
    ensures ids.Valid() && fresh(a)
    ensures a.cookies == {c1, c2, c3, c4} && |a.cookies| == 4
    ensures c1.flavor == f1 && c2.flavor == f2 && c3.flavor == f3 && c4.flavor == f4
    ensures c1 != c2 && c1 != c3 && c1 != c4 && c2 != c3 && c2 != c4 && c3 != c4
  {
    a := new CookieJar();
    c1 := NewCookie(f1, ids);
    a.Insert(c1);
    c2 := NewCookie(f2, ids);
    a.Insert(c2);
    c3 := NewCookie(f3, ids);
    assert c3.id !in {c1.id, c2.id};
    a.Insert(c3);
    c4 := NewCookie(f4, ids);
    assert c4.id !in {c1.id, c2.id, c3.id};
    a.Insert(c4);
  }

  /** The scenario of the demonstration: jar A gets a chocolate chip cookie,
      a stroopwafel, another chocolate chip cookie and a fortune cookie and
      shows their four emojis; all four are moved to jar B, after which A
      shows nothing and B shows two chocolate chip emojis, one stroopwafel
      and one fortune cookie. */
  method TransferScenario()
    returns (shownABefore: string, quantityA: nat, quantityB: nat, shownAAfter: string, shownB: string)
    ensures |shownABefore| == 4
    ensures multiset(shownABefore)[ChocolateChip.Emoji()] == 2
    ensures multiset(shownABefore)[Stroopwafel.Emoji()] == 1
    ensures multiset(shownABefore)[Fortune.Emoji()] == 1
    ensures quantityA == 0 && quantityB == 4
    ensures shownAAfter == ""
    ensures multiset(shownB) == multiset(shownABefore)
  {
    var ids := new IdSource();
    var a, c1, c2, c3, c4 := FillJar(ids, ChocolateChip, Stroopwafel, ChocolateChip, Fortune);
    shownABefore := a.Emojis();
    assert OfFlavor(a.cookies, ChocolateChip) == {c1, c3};
    assert OfFlavor(a.cookies, Stroopwafel) == {c2};
    assert OfFlavor(a.cookies, Fortune) == {c4};
    ghost var before := a.cookies;
    var b := new CookieJar();
    MoveCookies(a, b, 4);
    quantityA := a.Quantity();
    quantityB := b.Quantity();
    shownAAfter := a.Emojis();
    shownB := b.Emojis();
    assert b.cookies == before;
  }

  /** The single-move example: jar A gets two chocolate chip cookies, a
      fortune cookie and a stroopwafel and reports four cookies; one cookie
      taken out of A goes into a new jar B, which shows that cookie's emoji
      alone, and A is left with three cookies showing the other emojis. */
  method InsertRemoveExample()
    returns (quantityBefore: nat, shownBefore: string, shownB: string, quantityAfter: nat, shownAfter: string)
    ensures quantityBefore == 4 && |shownBefore| == 4
    ensures multiset(shownBefore)[ChocolateChip.Emoji()] == 2
    ensures multiset(shownBefore)[Fortune.Emoji()] == 1
    ensures multiset(shownBefore)[Stroopwafel.Emoji()] == 1
    ensures |shownB| == 1 && shownB[0] in multiset(shownBefore)
    ensures quantityAfter == 3 && |shownAfter| == 3
    ensures multiset(shownAfter) + multiset(shownB) == multiset(shownBefore)
  {
    var ids := new IdSource();
    var a, c1, c2, c3, c4 := FillJar(ids, ChocolateChip, ChocolateChip, Fortune, Stroopwafel);
    quantityBefore := a.Quantity();
    shownBefore := a.Emojis();
    assert OfFlavor(a.cookies, ChocolateChip) == {c1, c2};
    assert OfFlavor(a.cookies, Fortune) == {c3};
    assert OfFlavor(a.cookies, Stroopwafel) == {c4};
    ghost var before := a.cookies;

    var b := new CookieJar();
    var taken := a.Remove();
    b.Insert(taken.value);
    shownB := b.Emojis();
    quantityAfter := a.Quantity();
    shownAfter := a.Emojis();

    EmojiBagRemove(before, taken.value);
    EmojiBagRemove(b.cookies, taken.value);
    assert b.cookies - {taken.value} == {};
    assert multiset(shownB) == multiset{taken.value.flavor.Emoji()};
    assert shownB[0] in multiset(shownB);
  }
}
