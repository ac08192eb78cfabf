/** A model of CookieJar/CookieJar.swift: a closed enum of cookie flavors,
    cookies that carry a flavor and a private unique id, and a jar that keeps
    its cookies in a set and behaves as an unordered bag. */
module Cookies {

  datatype Option<T> = None | Some(value: T)

  /** The three flavors; each has a display name and an emoji. */
  datatype CookieFlavor = ChocolateChip | Fortune | Stroopwafel
  {
    function Description(): string
    {
      match this
      case ChocolateChip => "Chocolate Chip"
      case Fortune => "Fortune"
      case Stroopwafel => "Stroopwafel"
    }

    /** U+1F36A COOKIE, U+1F960 FORTUNE COOKIE, U+1F9C7 WAFFLE. */
    function Emoji(): char
    {
      match this
      case ChocolateChip => '\U{1F36A}'
      case Fortune => '\U{1F960}'
      case Stroopwafel => '\U{1F9C7}'
    }
  }

  /** Distinct flavors have distinct display names. */
  lemma DescriptionInjective(f: CookieFlavor, g: CookieFlavor)
    ensures f.Description() == g.Description() <==> f == g
  {
  }

  /** Distinct flavors have distinct emojis. */
  lemma EmojiInjective(f: CookieFlavor, g: CookieFlavor)
    ensures f.Emoji() == g.Emoji() <==> f == g
  {
  }

  /** A cookie: a flavor and the private id that makes every constructed
      cookie a distinct element of a set. The id stands for a UUID. */
  datatype Cookie = Cookie(flavor: CookieFlavor, id: nat)
  {
    function Description(): string
    {
      flavor.Description() + " Cookie"
    }
  }

  /** Two cookies read the same exactly when they have the same flavor; the
      description ends in " Cookie" after the flavor's name. */
  lemma CookieDescriptionDeterminesFlavor(c: Cookie, d: Cookie)
    ensures c.Description() == d.Description() <==> c.flavor == d.flavor
    ensures c.Description()[..|c.flavor.Description()|] == c.flavor.Description()
    ensures c.Description()[|c.flavor.Description()|..] == " Cookie"
  {
  }

  /** The source of fresh ids that UUID() provides: every id it hands out is
      new. Modelled as a counter; Issued is the set of ids handed out so far. */
  class IdSource
  {
    var next: nat
    ghost var Issued: set<nat>

    ghost predicate Valid()
      reads this
    {
      forall i :: i in Issued ==> i < next
    }

    constructor ()
      ensures Valid() && Issued == {}
    {
      next := 0;
      Issued := {};
    }

    method NewId() returns (id: nat)
      requires Valid()
      modifies this
      ensures Valid()
      ensures id !in old(Issued) && Issued == old(Issued) + {id}
    {
      id := next;
      next := next + 1;
      Issued := Issued + {id};
    }
  }

  /** Cookie(flavor:): the given flavor and an id never handed out before. */
  method NewCookie(flavor: CookieFlavor, ids: IdSource) returns (c: Cookie)
    requires ids.Valid()
    modifies ids
    ensures ids.Valid()
    ensures c.flavor == flavor
    ensures c.id !in old(ids.Issued) && ids.Issued == old(ids.Issued) + {c.id}
  {
    var id := ids.NewId();
    c := Cookie(flavor, id);
  }

  /** The cookies of one flavor in a set of cookies. */
  ghost function OfFlavor(cs: set<Cookie>, f: CookieFlavor): set<Cookie>
  {
    set c | c in cs && c.flavor == f
  }

  /** How many cookies of flavor f the set holds. */
  ghost function FlavorCount(cs: set<Cookie>, f: CookieFlavor): nat
  {
    |OfFlavor(cs, f)|
  }

  /** The multiset of emojis of a set of cookies, one per cookie, in no order. */
  ghost function EmojiBag(cs: set<Cookie>): multiset<char>
    decreases |cs|
  {
    if cs == {} then multiset{}
    else
      var c :| c in cs;
      EmojiBag(cs - {c}) + multiset{c.flavor.Emoji()}
  }

  /** EmojiBag does not depend on which cookie it takes first. */
  lemma {:induction false} EmojiBagRemove(cs: set<Cookie>, x: Cookie)
    requires x in cs
    ensures EmojiBag(cs) == EmojiBag(cs - {x}) + multiset{x.flavor.Emoji()}
    decreases |cs|
  {
    var c :| c in cs && EmojiBag(cs) == EmojiBag(cs - {c}) + multiset{c.flavor.Emoji()};
    if c != x {
      EmojiBagRemove(cs - {c}, x);
      EmojiBagRemove(cs - {x}, c);
      assert cs - {c} - {x} == cs - {x} - {c};
    }
  }

  /** One emoji per cookie. */
  lemma {:induction false} EmojiBagSize(cs: set<Cookie>)
    ensures |EmojiBag(cs)| == |cs|
    decreases |cs|
  {
    if cs != {} {
      var c :| c in cs;
      EmojiBagRemove(cs, c);
      EmojiBagSize(cs - {c});
    }
  }

  /** Taking one cookie out lowers the count of its own flavor by one and
      leaves the other counts alone. */
  lemma FlavorCountRemove(cs: set<Cookie>, c: Cookie, f: CookieFlavor)
    requires c in cs
    ensures FlavorCount(cs, f) == FlavorCount(cs - {c}, f) + (if c.flavor == f then 1 else 0)
  {
    if c.flavor == f {
      assert OfFlavor(cs, f) == OfFlavor(cs - {c}, f) + {c};
    } else {
      assert OfFlavor(cs, f) == OfFlavor(cs - {c}, f);
    }
  }

  /** The emoji of flavor f occurs once per cookie of flavor f. */
  lemma {:induction false} EmojiBagCount(cs: set<Cookie>, f: CookieFlavor)
    ensures EmojiBag(cs)[f.Emoji()] == FlavorCount(cs, f)
    decreases |cs|
  {
    if cs == {} {
      assert OfFlavor(cs, f) == {};
    } else {
      var c :| c in cs;
      EmojiBagRemove(cs, c);
      EmojiBagCount(cs - {c}, f);
      EmojiInjective(c.flavor, f);
      FlavorCountRemove(cs, c, f);
    }
  }

  /** Every emoji in the bag is the emoji of a cookie in the set. */
  lemma {:induction false} EmojiBagOnlyFlavorEmojis(cs: set<Cookie>, e: char)
    ensures e in EmojiBag(cs) ==> exists c :: c in cs && c.flavor.Emoji() == e
    decreases |cs|
  {
    if cs != {} {
      var c :| c in cs;
      EmojiBagRemove(cs, c);
      EmojiBagOnlyFlavorEmojis(cs - {c}, e);
    }
  }

  /** The emojis shown for two sets of cookies agree as multisets exactly
      when the two sets hold the same number of cookies of every flavor. */
  lemma EmojisDetermineFlavors(a: set<Cookie>, b: set<Cookie>)
    ensures EmojiBag(a) == EmojiBag(b) <==>
            forall f: CookieFlavor :: FlavorCount(a, f) == FlavorCount(b, f)
  {
    forall f: CookieFlavor
      ensures EmojiBag(a)[f.Emoji()] == FlavorCount(a, f)
      ensures EmojiBag(b)[f.Emoji()] == FlavorCount(b, f)
    {
      EmojiBagCount(a, f);
      EmojiBagCount(b, f);
    }
    if forall f: CookieFlavor :: FlavorCount(a, f) == FlavorCount(b, f) {
      forall e: char ensures EmojiBag(a)[e] == EmojiBag(b)[e] {
        EmojiBagOnlyFlavorEmojis(a, e);
        EmojiBagOnlyFlavorEmojis(b, e);
      }
    }
  }

  /** The jar: an unordered bag of cookies kept in a set. */
  class CookieJar
  {
    var cookies: set<Cookie>

    /** A new jar is empty. */
    constructor ()
      ensures cookies == {}
    {
      cookies := {};
    }

    /** The number of distinct cookies in the jar; the jar is unchanged. */
    method Quantity() returns (n: nat)
      ensures n == |cookies|
      ensures n == 0 <==> cookies == {}
    {
      n := |cookies|;
    }

    /** Adds c; a cookie equal to one already held is absorbed. */
    method Insert(c: Cookie)
      modifies this
      ensures cookies == old(cookies) + {c}
      ensures c in cookies
      ensures |cookies| == if c in old(cookies) then old(|cookies|) else old(|cookies|) + 1
    {
      cookies := cookies + {c};
    }

    /** Takes out an arbitrary cookie. Set.removeFirst() traps on an empty
        set, so the jar must not be empty and the result is never None. */
    method Remove() returns (r: Option<Cookie>)
      requires cookies != {}
      modifies this
      ensures r.Some? && r.value in old(cookies)
      ensures cookies == old(cookies) - {r.value}
      ensures |cookies| == old(|cookies|) - 1
    {
      var c :| c in cookies;
      cookies := cookies - {c};
      r := Some(c);
    }

    /** One emoji per cookie, in the set's iteration order, which is left
        unspecified; the jar is unchanged. */
    method Emojis() returns (s: string)
      ensures |s| == |cookies|
      ensures multiset(s) == EmojiBag(cookies)
      ensures forall f: CookieFlavor :: multiset(s)[f.Emoji()] == FlavorCount(cookies, f)
    {
      var chars: seq<char> := [];
      var rest := cookies;
      while rest != {}
        invariant rest <= cookies
        invariant multiset(chars) + EmojiBag(rest) == EmojiBag(cookies)
        decreases |rest|
      {
        var c :| c in rest;
        EmojiBagRemove(rest, c);
        chars := chars + [c.flavor.Emoji()];
        rest := rest - {c};
      }
      s := chars;
      EmojiBagSize(cookies);
      forall f: CookieFlavor ensures multiset(s)[f.Emoji()] == FlavorCount(cookies, f) {
        EmojiBagCount(cookies, f);
      }
    }
  }
}
