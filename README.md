# URL shortener controllers, modelled in Dafny

This project models the two iterations of the URL shortener in the
`express-fundamentals` repository. Each keeps an in-memory map from slugs to
destination URLs. Each offers `convertURL`, which stores a mapping under a
random or a user-supplied slug, and `redirectURL`, which looks a slug up.

- `js.dfy` (module `Js`): the JavaScript value semantics the handlers rely on.
  A missing request field is `None`. `undefined` and `""` are falsy.
  `String(undefined)` is `"undefined"`.
- `slugs.dfy` (module `Slugs`): the 62-character alphabet and `Math.random`.
  `Math.random` is an oracle: class `Random`, whose `draw(n)` is the alphabet
  index of the n-th call. The module also holds the `getRandomSlug` loop
  (`RandomSlug`) and user-slug normalisation
  (`slug.replace(/\s+/g, '-').toLowerCase()`), with its properties:
  - no whitespace and no capitals remain;
  - normalising twice equals normalising once;
  - each maximal whitespace run becomes one `-`;
  - leading whitespace is not trimmed.
- `urlshortener.dfy` (module `UrlShortener`): the project version. Class
  `Shortener` holds `urlObj` and the URL validator `isURL`. `ConvertURL` is
  proved equal to the specification function `Convert`; `RedirectURL` to
  `Resolve`. Lemmas cover:
  - the length cap of 10;
  - URL validation;
  - the retry-until-free random slug of 10 characters;
  - insert-if-absent under the normalised slug;
  - the round trip from a created short URL back to the submitted URL;
  - that no call overwrites an entry, and that two slug-less requests in a
    row store under two different keys.

  The retry loop (`FreeRandomSlug`) is proved to stop at the first attempt
  whose slug is free. This needs a ghost witness `freeAttempt`: an attempt
  at which the random source yields a free slug.
- `challenge.dfy` (module `ChallengeShortener`): the earlier challenge
  version. Its random slug has 6 characters. It has no URL validation and no
  collision check on the random slug. It tests the raw slug for presence,
  then writes under the normalised slug. A miss on redirect is a 400.

Behaviour of the code worth noting:
- normalisation does not trim;
- the length cap applies to `String(slug)`, so an absent slug passes it as
  `"undefined"` (9 characters);
- the length check comes before URL validation;
- the random slug always has 10 characters (project) or 6 (challenge);
- the challenge version answers 400 on an unknown slug and can overwrite
  existing mappings.

## Model

| member | source | states |
|---|---|---|
| `Slugs.Random.Next` | week1-express-fundamentals/urlshortener-project/urlshortener/urlshortenerController.js:14 | one `Math.floor(Math.random() * 62)` is the oracle's next index, in `[0, 62)`; the call counter advances by one |
| `Slugs.DrawnSlug` | week1-express-fundamentals/urlshortener-project/urlshortener/urlshortenerController.js:12-16 | the slug built from `n` draws has exactly `n` characters, each from the alphabet `A-Za-z0-9` |
| `Slugs.RandomSlug` | week1-express-fundamentals/urlshortener-project/urlshortener/urlshortenerController.js:9-18 | the loop over `counter` = 0..`length` appends `length + 1` drawn characters, all in the alphabet, and makes `length + 1` random calls |
| `UrlShortener.GetRandomSlug` | week1-express-fundamentals/urlshortener-project/urlshortener/urlshortenerController.js:7-18 | `getRandomSlug` returns exactly 10 characters, each from `A-Za-z0-9` |
| `ChallengeShortener.GetRandomSlug` | week1-express-fundamentals/challenges/urlshortener/urlshortenerController.js:3-14 | `getRandomSlug` returns exactly 6 characters, each from `A-Za-z0-9` |
| `Slugs.HyphenateSpaces` | week1-express-fundamentals/urlshortener-project/urlshortener/urlshortenerController.js:41 | `replace(/\s+/g, '-')` leaves no whitespace (the full ECMAScript `\s` set) and never lengthens the slug |
| `Slugs.HyphenateSpacesOfRun` | week1-express-fundamentals/urlshortener-project/urlshortener/urlshortenerController.js:41 | `replace(/\s+/g, '-')` keeps a whitespace-free prefix, turns the maximal whitespace run after it into one `-`, and carries on with the rest |
| `Slugs.NormaliseShape` | week1-express-fundamentals/urlshortener-project/urlshortener/urlshortenerController.js:41 | a normalised slug has no whitespace and no upper-case ASCII letter, and is no longer than the raw slug |
| `Slugs.NormaliseIdempotent` | week1-express-fundamentals/urlshortener-project/urlshortener/urlshortenerController.js:41 | normalising a normalised slug gives it back unchanged |
| `Slugs.NormaliseSpaceFree` | week1-express-fundamentals/urlshortener-project/urlshortener/urlshortenerController.js:41 | a slug without whitespace is only lowercased |
| `Slugs.NormaliseRun` | week1-express-fundamentals/urlshortener-project/urlshortener/urlshortenerController.js:41 | each maximal whitespace run becomes one `-`: a whitespace-free part, a run and a rest normalise to the lowercased part, `-`, and the normalised rest |
| `Slugs.NormaliseSingleRun` | week1-express-fundamentals/urlshortener-project/urlshortener/urlshortenerController.js:41 | a maximal whitespace run between whitespace-free parts becomes exactly one `-`; both parts are lowercased |
| `Slugs.NormaliseLeadingSpace` | week1-express-fundamentals/urlshortener-project/urlshortener/urlshortenerController.js:41 | leading whitespace is not trimmed: the normalised slug starts with `-` |
| `Slugs.NormaliseMySlug` | week1-express-fundamentals/challenges/urlshortener/urlshortenerController.js:29 | `"My Slug"` normalises to `"my-slug"` |
| `UrlShortener.FirstFreeAttempt` | week1-express-fundamentals/urlshortener-project/urlshortener/urlshortenerController.js:30-32 | the retry loop's stopping attempt: its slug is not a key, every earlier attempt's slug is a key, and it is no later than any attempt known to be free |
| `UrlShortener.FirstFreeAttemptIs` | week1-express-fundamentals/urlshortener-project/urlshortener/urlshortenerController.js:30-32 | the loop's stopping attempt is unique: a free attempt with every earlier attempt taken is the one `FirstFreeAttempt` names |
| `UrlShortener.Shortener.FreeRandomSlug` | week1-express-fundamentals/urlshortener-project/urlshortener/urlshortenerController.js:29-32 | one discarded draw, then redraws until free; the result is the first free attempt's slug and is not a key; the random source advances by 10 calls per attempt, the discarded one included |
| `UrlShortener.Shortener.ConvertURL` | week1-express-fundamentals/urlshortener-project/urlshortener/urlshortenerController.js:21-57 | response and new map are exactly `Convert` of the old map, with the retry loop's first free slug when no slug is given; no random draws otherwise |
| `UrlShortener.Shortener.RedirectURL` | week1-express-fundamentals/urlshortener-project/urlshortener/urlshortenerController.js:59-66 | a present raw slug redirects to its stored URL; an absent one gets 404 `` `${slug} Not found` ``; the map is not modified |
| `UrlShortener.ConvertThenRedirect` | week1-express-fundamentals/urlshortener-project/urlshortener/urlshortenerController.js:21-66 | a `convertURL` that creates a mapping, followed by `redirectURL` on the slug of the returned short URL, redirects to the submitted URL; a rejection leaves the map as it was |
| `UrlShortener.ConvertRejectsLongSlug` | week1-express-fundamentals/urlshortener-project/urlshortener/urlshortenerController.js:54-56 | when `String(slug)` (checked at line 23) is longer than 10, the answer is 400 "Slug has more than 10 character" and the map is unchanged |
| `UrlShortener.AbsentSlugFits` | week1-express-fundamentals/urlshortener-project/urlshortener/urlshortenerController.js:23 | an absent slug passes the length check, because `String(undefined)` has 9 characters; it is falsy |
| `UrlShortener.ConvertRejectsInvalidUrl` | week1-express-fundamentals/urlshortener-project/urlshortener/urlshortenerController.js:24-26 | after the length check, a missing or empty URL, or one `isURL` rejects, gives "Invalid URL format" and no write, whatever the slug |
| `UrlShortener.ConvertGeneratedSlug` | week1-express-fundamentals/urlshortener-project/urlshortener/urlshortenerController.js:28-39 | with a falsy slug and a free generated slug: 201 with `BaseURL + slug` and the URL; the keys grow by exactly that slug, which maps to the URL; every other entry is unchanged |
| `UrlShortener.ConvertExplicitSlug` | week1-express-fundamentals/urlshortener-project/urlshortener/urlshortenerController.js:40-52 | with a truthy slug: an absent normalised slug is inserted (201, `BaseURL + normalised`); a present one gives 400 "Slug already in use" and the map is untouched |
| `UrlShortener.ConvertSucceedsIff` | week1-express-fundamentals/urlshortener-project/urlshortener/urlshortenerController.js:21-57 | `convertURL` creates a mapping if and only if the slug fits, the URL is valid, and either no slug is given or the normalised slug is free |
| `UrlShortener.ConvertNeverOverwrites` | week1-express-fundamentals/urlshortener-project/urlshortener/urlshortenerController.js:28-52 | every rejection leaves the map as it was; no entry is ever removed or overwritten; at most one key is added |
| `UrlShortener.CreatedShortUrlResolves` | week1-express-fundamentals/urlshortener-project/urlshortener/urlshortenerController.js:35-62 | a success returns `originalURL == url` and a short URL that is `BaseURL` followed by the stored key; `redirectURL` on that key yields exactly `url` |
| `UrlShortener.GeneratedSlugsDiffer` | week1-express-fundamentals/urlshortener-project/urlshortener/urlshortenerController.js:29-34 | two slug-less requests in a row store under two different generated keys |
| `UrlShortener.ConvertTwiceWithoutSlug` | week1-express-fundamentals/urlshortener-project/urlshortener/urlshortenerController.js:21-39 | two `convertURL` calls without a slug both create, each under a generated key that was not a key before; the two keys differ and the map gains exactly those two entries |
| `UrlShortener.ConvertAsWritten` | week1-express-fundamentals/urlshortener-project/urlshortener/urlshortenerController.js:21-57 | with `urlObj` a plain object, `convertURL` responds exactly when the slug is too long or the URL invalid, and then only with "Slug has more than 10 character" or "Invalid URL format"; every request passing both checks throws |
| `UrlShortener.RedirectAsWritten` | week1-express-fundamentals/urlshortener-project/urlshortener/urlshortenerController.js:59-66 | with `urlObj` a plain object, `redirectURL` always throws at `urlObj.has` |
| `UrlShortener.AsWrittenThrowsOnValidRequest` | week1-express-fundamentals/urlshortener-project/urlshortener/urlshortenerController.js:5-43 | a request that passes both checks throws as written, while the map-based model creates the mapping |
| `ChallengeShortener.Shortener.ConvertURL` | week1-express-fundamentals/challenges/urlshortener/urlshortenerController.js:17-36 | response and new map are exactly `Convert` of the old map; 6 random draws when the slug is falsy, none otherwise |
| `ChallengeShortener.Shortener.RedirectURL` | week1-express-fundamentals/challenges/urlshortener/urlshortenerController.js:38-46 | a present raw slug redirects to its stored URL; an absent one gets 400 `` `${slug} Not found, please enter a valid slug` ``; the map is not modified |
| `ChallengeShortener.ConvertGeneratedSlug` | week1-express-fundamentals/challenges/urlshortener/urlshortenerController.js:18-24 | a falsy slug stores the URL under the random slug with no collision check; the answer is 200 with the short URL; every other key keeps its URL |
| `ChallengeShortener.ConvertRawSlugInUse` | week1-express-fundamentals/challenges/urlshortener/urlshortenerController.js:26-27 | a raw slug that is a key gives 400 "Slug already in use" and the map is unchanged |
| `ChallengeShortener.ConvertNormalisedInsert` | week1-express-fundamentals/challenges/urlshortener/urlshortenerController.js:28-33 | a raw slug that is not a key stores the URL under the normalised slug unconditionally |
| `ChallengeShortener.ConvertStoresUrlVerbatim` | week1-express-fundamentals/challenges/urlshortener/urlshortenerController.js:17-36 | a success stores the request's URL as given, unvalidated, under the key its short URL names; redirect on that key yields it |
| `ChallengeShortener.NormalisedSlugOverwrites` | week1-express-fundamentals/challenges/urlshortener/urlshortenerController.js:26-30 | with `"my-slug"` taken, the slug `"My Slug"` passes the raw check and overwrites the `"my-slug"` mapping |
| `ChallengeShortener.GeneratedSlugOverwrites` | week1-express-fundamentals/challenges/urlshortener/urlshortenerController.js:18-21 | a generated slug that is already a key replaces that key's URL |

## Findings

| source | as written | input that shows it | evidently intended | confidence | as-written member | corrected member |
|---|---|---|---|---|---|---|
| week1-express-fundamentals/urlshortener-project/urlshortener/urlshortenerController.js:5 | `urlObj` is the plain object `{}`, yet lines 32, 34, 42, 43 and 61 call `.has`/`.set`, which a plain object lacks, so they throw a TypeError | `POST /convert` with `{"url": "https://example.com"}` (any URL `isURL` accepts); any `GET /:slug` | a `Map`, as in the challenge version | high; not executed | `UrlShortener.AsWrittenThrowsOnValidRequest` | `UrlShortener.CreatedShortUrlResolves` |
| week1-express-fundamentals/challenges/urlshortener/urlshortenerController.js:26-30 | presence is tested on the raw slug but the write goes to the normalised slug, so an existing mapping is overwritten | map `{"my-slug": A}`, then `POST /convert` with slug `"My Slug"` and url `B` | refuse with "Slug already in use", as the project version does | medium; not executed | `ChallengeShortener.NormalisedSlugOverwrites` | `UrlShortener.ConvertNeverOverwrites` |
| week1-express-fundamentals/challenges/urlshortener/urlshortenerController.js:18-21 | the random slug is stored without a collision check | a generated 6-character slug equal to an existing key | redraw until free, as the project version does | medium; not executed | `ChallengeShortener.GeneratedSlugOverwrites` | `UrlShortener.Shortener.FreeRandomSlug` |

The corrected behaviour in every row is the project version's model. That
model keeps the map as a finite map and never overwrites an entry.

## Left out

- `Math.random`'s floating point and seeding: the n-th call is an oracle index in `[0, 62)` (`Slugs.Random`).
- The internals of the `validator` library's `isURL`: the project `Shortener` holds it as an abstract function `isURL`.
- UrlShortener.Shortener.ConvertURL: the retry loop is unbounded in the source. Its termination rests on a fairness assumption, `EventuallyFree`: a ghost witness attempt whose slug is free. Without one the model does not claim termination.
- `toLowerCase` beyond ASCII: only `A`-`Z` are lowercased. `\s` is modelled as the full ECMAScript whitespace set.
- UrlShortener.SlugFits: `String(slug).length` counts UTF-16 code units in JavaScript. The model counts characters, so a slug with characters outside the Basic Multilingual Plane is measured differently.
- Non-string request values (numbers, objects, `null`). A numeric slug reaching `slug.replace` would throw. Slugs and project URLs are `Option<string>`.
- ChallengeShortener.Shortener.ConvertURL: the URL is a string. A missing URL, which the source would store as `undefined`, is not modelled.
- Response bodies are reduced to their data. The constant `"message": "URL converted successfully"` field and the challenge's multi-line text around the short URL are not modelled. `console.log` is left out.
- Redirect status: the source sets 200 and then calls `redirect`. Express's `redirect` sets its own status (302 by default), and that is what `Status()` reports. Express itself is not part of this model.
- Concurrency and atomic insert-if-absent: Node runs each handler to completion on one thread, and the source has no concurrency logic.
- Routing, server bootstrap and the user stub handlers (`basicController.js`, the routers, `basicServer.js`, the `basic-server` files): wiring and echo responses with no state.
