# CookieJar — a verified model of the cookie jar bag

The Swift program keeps cookies in a jar that behaves as a *bag*: an
unordered collection you can put cookies into, take an arbitrary cookie
out of, count, and show as a row of emojis. This project models its core,
`CookieJar/CookieJar.swift`, in two modules:

- `Cookies` (`cookie_jar.dfy`): the closed `CookieFlavor` enum with its
  display names and emojis, the `Cookie` value (a flavor and a private id
  standing for the UUID), an `IdSource` class standing for `UUID()` as a
  source of ids that are never handed out twice, and the `CookieJar` class
  whose only state is the field `cookies: set<Cookie>`, updated in place by
  `Insert` and `Remove`. What `Emojis` produces is specified by the ghost
  function `EmojiBag` (the multiset of the cookies' emojis, in no order) and
  by an independent reference, `FlavorCount` (how many cookies of each flavor
  the jar holds); lemmas tie the two together.
- `Demo` (`demo.dfy`): client code after `CookieJar/main.swift`: the loop
  that moves cookies from jar A to jar B with a counter, the four-cookie
  transfer scenario, the uncalled single-move example `insertRemoveExample`,
  and what callers can prove from the jar's contracts alone (a round trip
  through an empty jar, two cookies baked in turn being distinct).

## Model

| member | source | states |
|---|---|---|
| Cookies.DescriptionInjective | CookieJar/CookieJar.swift:28-34 | the three display names are pairwise distinct: two flavors have the same name exactly when they are the same flavor |
| Cookies.EmojiInjective | CookieJar/CookieJar.swift:36-42 | the three emojis are pairwise distinct: two flavors have the same emoji exactly when they are the same flavor |
| Cookies.CookieDescriptionDeterminesFlavor | CookieJar/CookieJar.swift:55 | a cookie's description is its flavor's name followed by " Cookie", and two cookies have the same description exactly when their flavors agree |
| Cookies.IdSource.NewId | CookieJar/CookieJar.swift:56 | the id given out was never given out before, and it is recorded as given out |
| Cookies.NewCookie | CookieJar/CookieJar.swift:50-56 | a new cookie has the requested flavor and an id never handed out before by the same `IdSource` |
| Cookies.CookieJar.constructor | CookieJar/CookieJar.swift:72-74 | a new jar holds no cookies |
| Cookies.CookieJar.Quantity | CookieJar/CookieJar.swift:76-78 | the result is the number of distinct cookies held, it is zero exactly when the jar is empty, and the jar is not changed |
| Cookies.CookieJar.Insert | CookieJar/CookieJar.swift:80-82 | afterwards the cookie is in the jar and nothing else was added or removed; the quantity grows by one if the cookie was absent and stays the same if an equal cookie was held |
| Cookies.CookieJar.Remove | CookieJar/CookieJar.swift:84-86 | on a non-empty jar the result is present and was in the jar; that cookie is gone, every other cookie stays, and the quantity drops by exactly one |
| Cookies.CookieJar.Emojis | CookieJar/CookieJar.swift:88-92 | one emoji per cookie (length equals the quantity), the multiset of emojis is that of the cookies' flavors, each flavor's emoji occurs as often as cookies of that flavor are held, and the jar is not changed |
| Cookies.EmojiBagRemove | CookieJar/CookieJar.swift:88-92 | the emoji multiset does not depend on which cookie the iteration takes first: any cookie of the set can be taken out first |
| Cookies.EmojiBagSize | CookieJar/CookieJar.swift:88-92 | the emoji multiset has exactly one element per cookie |
| Cookies.EmojiBagCount | CookieJar/CookieJar.swift:88-92 | a flavor's emoji occurs in the emoji multiset exactly as often as the set holds cookies of that flavor |
| Cookies.FlavorCountRemove | CookieJar/CookieJar.swift:84-86 | taking one cookie out lowers the count of its flavor by one and leaves the counts of the other flavors unchanged |
| Cookies.EmojiBagOnlyFlavorEmojis | CookieJar/CookieJar.swift:88-92 | every character shown is the emoji of some cookie in the jar |
| Cookies.EmojisDetermineFlavors | CookieJar/CookieJar.swift:88-92 | two jars show the same emojis as a multiset exactly when they hold the same number of cookies of every flavor |
| Demo.MoveCookies | CookieJar/main.swift:24-30 | moving `count` cookies (no more than the source holds) from one jar to a disjoint one moves exactly those cookies; the source shrinks and the target grows by `count`; moving them all empties the source and gives the target the source's original contents |
| Demo.BakeTwo | CookieJar/CookieJar.swift:50-56 | two cookies baked in turn are unequal even when their flavors match |
| Demo.InsertThenRemove | CookieJar/CookieJar.swift:80-86 | inserting a cookie into a new jar and removing one returns that cookie and leaves the jar empty |
| Demo.FillJar | CookieJar/main.swift:12-20 | four freshly baked cookies of the given flavors, inserted in turn into a new jar, are four pairwise distinct cookies and the jar holds exactly them |
| Demo.TransferScenario | CookieJar/main.swift:11-33 | before the transfer A shows four emojis, two chocolate chip, one stroopwafel and one fortune; after moving all four cookies to B, A holds none and shows the empty string, B holds four and shows the same emojis A showed before, in some order |
| Demo.InsertRemoveExample | CookieJar/main.swift:40-58 | A holds four cookies and shows two chocolate chip emojis, one fortune and one stroopwafel; after one cookie moves to a new jar B, B shows exactly one emoji taken from A's, A holds three, and A's remaining emojis together with B's are A's original emojis |

## Left out

- Cookies.NewCookie: an id is guaranteed new only to the `IdSource` it came from, whereas `UUID()` is unique program-wide; cookies are distinct only when they are all baked from one shared source, as every method of `Demo` does. The `Cookie` datatype constructor can also be applied to any id, which the `private let id` of the Swift struct does not allow.
- UUID generation: the randomness of `UUID()` is not modelled; `IdSource` is a counter that stands for any source of ids that never repeat.
- Swift `Set` hashing and iteration order: the store is a mathematical set; `Remove` takes an arbitrary member and `Emojis` is specified up to order (by its multiset).
- Emoji characters are single Unicode scalar values (`char`); grapheme clustering and `String(chars)` conversion are not modelled beyond a `string` being a sequence of `char`.
- `quantity()` returns a Swift `Int`; the model uses an unbounded `nat`, as the jar cannot hold anywhere near `Int.max` cookies.
- `CookieBagProtocol` (CookieJar/CookieJar.swift:63-68): interface machinery with one conformer; the class is modelled directly.
- Cookies.CookieJar.Remove: `remove()` is declared `-> Cookie?` (CookieJar/CookieJar.swift:84) but returns `cookies.removeFirst()`, which traps on an empty set; the model therefore requires a non-empty jar, its `Option` result is always `Some`, and the trap itself (a crash, not a `nil`) is not modelled.
- `print` output of CookieJar/main.swift is not modelled; the printed emoji strings and quantities are returned instead. `cookieTot`, printed at CookieJar/main.swift:33, is not returned: it survives only as the `count` argument of `Demo.MoveCookies`, which the loop counts down to zero.
