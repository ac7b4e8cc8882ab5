/**
  The project version of the URL shortener controller: a module-level slug to
  URL map, `convertURL` (length cap, URL validation, retry-until-free random
  slug, normalised user slug, insert-if-absent) and `redirectURL`.
 */
module UrlShortener {
  import opened Js
  import opened Slugs

  const BaseURL: string := "http://localhost:3000/url/"

  /** The cap on `String(slug).length`. */
  const MaxSlugLength: nat := 10

  /** The `length` constant of `getRandomSlug`; the loop runs `counter` = 0..9. */
  const RandomSlugLast: nat := 9

  /** How many characters one `getRandomSlug` call draws. */
  const RandomSlugLength: nat := RandomSlugLast + 1

  const SlugTooLongMessage: string := "Slug has more than 10 character"
  const InvalidUrlMessage: string := "Invalid URL format"
  const SlugInUseMessage: string := "Slug already in use"
  const NotFoundSuffix: string := " Not found"

  /** What a handler sends back. */
  datatype Response =
    | Created(shortURL: string, originalURL: string)
    | Error(msg: string)
    | Redirect(url: string)
    | NotFound(msg: string)
  {
    /** The HTTP status the handler sets. */
    function Status(): int
    {
      match this
      case Created(_, _) => 201
      case Error(_) => 400
      case Redirect(_) => 302
      case NotFound(_) => 404
    }
  }

  /** `String(slug).length <= 10`. */
  predicate SlugFits(slug: Option<string>)
  {
    |StringOf(slug)| <= MaxSlugLength
  }

  /** `url && isURL(url)`: the URL is present, non-empty and accepted by the validator. */
  predicate ValidUrl(url: Option<string>, isURL: string -> bool)
  {
    Truthy(url) && isURL(url.value)
  }

  /** The request passes both checks and carries no slug, so a random slug is generated. */
  predicate GeneratesSlug(url: Option<string>, slug: Option<string>, isURL: string -> bool)
  {
    SlugFits(slug) && ValidUrl(url, isURL) && !Truthy(slug)
  }

  /**
    The outcome of `convertURL` on map `m`: the response and the new map.
    `randomSlug` is the slug the retry loop settled on; it is read only when
    the request carries no slug.
   */
  function Convert(m: map<string, string>, url: Option<string>, slug: Option<string>,
                   isURL: string -> bool, randomSlug: string): (Response, map<string, string>)
  {
    if !SlugFits(slug) then (Error(SlugTooLongMessage), m)
    else if !ValidUrl(url, isURL) then (Error(InvalidUrlMessage), m)
    else if !Truthy(slug) then (Created(BaseURL + randomSlug, url.value), m[randomSlug := url.value])
    else
      var userSlug := Normalise(slug.value);
      if userSlug !in m then (Created(BaseURL + userSlug, url.value), m[userSlug := url.value])
      else (Error(SlugInUseMessage), m)
  }

  /** The outcome of `redirectURL` on map `m`; the lookup uses the raw slug. */
  function Resolve(m: map<string, string>, slug: string): Response
  {
    if slug in m then Redirect(m[slug]) else NotFound(slug + NotFoundSuffix)
  }

  /**
    The slug drawn by the `attempt`-th call of `getRandomSlug` in one request
    whose first random draw is call number `start`. Attempt 0 is the draw
    that is made before the retry loop and always discarded.
   */
  function AttemptSlug(draw: nat -> CharIndex, start: nat, attempt: nat): string
  {
    DrawnSlug(draw, start + attempt * RandomSlugLength, RandomSlugLength)
  }

  /** The retry loop's stopping attempt: the first attempt from `from` on whose slug is free. */
  function FirstFreeAttempt(draw: nat -> CharIndex, start: nat, m: map<string, string>,
                            from: nat, bound: nat): (a: nat)
    requires from <= bound && AttemptSlug(draw, start, bound) !in m
    ensures from <= a <= bound && AttemptSlug(draw, start, a) !in m
    ensures forall j :: from <= j < a ==> AttemptSlug(draw, start, j) in m
    decreases bound - from
  {
    if AttemptSlug(draw, start, from) !in m then from
    else FirstFreeAttempt(draw, start, m, from + 1, bound)
  }

  /** The first free attempt is unique: any free attempt with only taken ones before it is it. */
  lemma {:induction false} FirstFreeAttemptIs(draw: nat -> CharIndex, start: nat, m: map<string, string>,
                                              from: nat, bound: nat, a: nat)
    requires from <= a <= bound && AttemptSlug(draw, start, bound) !in m
    requires AttemptSlug(draw, start, a) !in m
    requires forall j :: from <= j < a ==> AttemptSlug(draw, start, j) in m
    ensures FirstFreeAttempt(draw, start, m, from, bound) == a
    decreases a - from
  {
    if from < a {
      assert AttemptSlug(draw, start, from) in m;
      FirstFreeAttemptIs(draw, start, m, from + 1, bound, a);
    }
  }

  /**
    The fairness assumption the unbounded retry loop needs: the oracle
    eventually, at attempt `bound`, produces a slug that is free.
   */
  predicate EventuallyFree(draw: nat -> CharIndex, start: nat, m: map<string, string>, bound: nat)
  {
    1 <= bound && AttemptSlug(draw, start, bound) !in m
  }

  /** `getRandomSlug`: ten characters, each from the 62-character alphabet. */
  method GetRandomSlug(rng: Random) returns (slug: string)
    modifies rng
    ensures rng.calls == old(rng.calls) + RandomSlugLength
    ensures slug == DrawnSlug(rng.draw, old(rng.calls), RandomSlugLength)
    ensures |slug| == 10 && InAlphabet(slug)
  {
    slug := RandomSlug(rng, RandomSlugLast);
  }

  /** The module state: the slug to URL map and the URL validator it imports. */
  class Shortener {
    var urlObj: map<string, string>
    const isURL: string -> bool

    constructor (isURL: string -> bool)
      ensures urlObj == map[] && this.isURL == isURL
    {
      urlObj := map[];
      this.isURL := isURL;
    }

    /**
      Lines 29-32 of `convertURL`: one discarded draw, then `getRandomSlug`
      again until the slug is not a key. It stops at the first free attempt.
     */
    method FreeRandomSlug(rng: Random, ghost freeAttempt: nat) returns (randomSlug: string)
      requires EventuallyFree(rng.draw, rng.calls, urlObj, freeAttempt)
      modifies rng
      ensures var a := FirstFreeAttempt(rng.draw, old(rng.calls), urlObj, 1, freeAttempt);
        && rng.calls == old(rng.calls) + (a + 1) * RandomSlugLength
        && randomSlug == AttemptSlug(rng.draw, old(rng.calls), a)
      ensures randomSlug !in urlObj
    {
      ghost var start := rng.calls;
      randomSlug := GetRandomSlug(rng);
      randomSlug := GetRandomSlug(rng);
      ghost var attempt := 1;
      while randomSlug in urlObj
        invariant 1 <= attempt <= freeAttempt
        invariant rng.calls == start + (attempt + 1) * RandomSlugLength
        invariant randomSlug == AttemptSlug(rng.draw, start, attempt)
        invariant forall j :: 1 <= j < attempt ==> AttemptSlug(rng.draw, start, j) in urlObj
        decreases freeAttempt - attempt
      {
        randomSlug := GetRandomSlug(rng);
        attempt := attempt + 1;
      }
      FirstFreeAttemptIs(rng.draw, start, urlObj, 1, freeAttempt, attempt);
    }

    /**
      `convertURL`. When a slug is generated, the retry loop stops at the first
      attempt whose slug is free; `freeAttempt` witnesses that one exists.
     */
    method ConvertURL(url: Option<string>, slug: Option<string>, rng: Random, ghost freeAttempt: nat)
      returns (resp: Response)
      requires GeneratesSlug(url, slug, isURL) ==> EventuallyFree(rng.draw, rng.calls, urlObj, freeAttempt)
      modifies this, rng
      ensures GeneratesSlug(url, slug, isURL) ==>
        var a := FirstFreeAttempt(rng.draw, old(rng.calls), old(urlObj), 1, freeAttempt);
        && rng.calls == old(rng.calls) + (a + 1) * RandomSlugLength
        && (resp, urlObj) == Convert(old(urlObj), url, slug, isURL, AttemptSlug(rng.draw, old(rng.calls), a))
      ensures !GeneratesSlug(url, slug, isURL) ==>
        && rng.calls == old(rng.calls)
        && (resp, urlObj) == Convert(old(urlObj), url, slug, isURL, "")
    {
      if |StringOf(slug)| <= MaxSlugLength {
        if !Truthy(url) || !isURL(url.value) {
          return Error(InvalidUrlMessage);
        }
        if !Truthy(slug) {
          var randomSlug := FreeRandomSlug(rng, freeAttempt);
          urlObj := urlObj[randomSlug := url.value];
          return Created(BaseURL + randomSlug, url.value);
        } else {
          var userSlug := Normalise(slug.value);
          if userSlug !in urlObj {
            urlObj := urlObj[userSlug := url.value];
            return Created(BaseURL + userSlug, url.value);
          } else {
            return Error(SlugInUseMessage);
          }
        }
      } else {
        return Error(SlugTooLongMessage);
      }
    }

    /** `redirectURL`: looks the raw slug up and never changes the map. */
    method RedirectURL(slug: string) returns (resp: Response)
      ensures slug in urlObj ==> resp == Redirect(urlObj[slug])
      ensures slug !in urlObj ==> resp == NotFound(slug + " Not found") && resp.Status() == 404
      ensures resp == Resolve(urlObj, slug)
    {
      if slug in urlObj {
        resp := Redirect(urlObj[slug]);
      } else {
        resp := NotFound(slug + NotFoundSuffix);
      }
    }
  }

  /**
    A client of the two handlers: a `convertURL` that creates a mapping,
    followed by a `redirectURL` on the slug of the short URL it returned,
    redirects to the submitted URL.
   */
  method ConvertThenRedirect(s: Shortener, url: Option<string>, slug: Option<string>, rng: Random,
                             ghost freeAttempt: nat) returns (created: Response, redirected: Response)
    requires GeneratesSlug(url, slug, s.isURL) ==> EventuallyFree(rng.draw, rng.calls, s.urlObj, freeAttempt)
    modifies s, rng
    ensures created.Created? ==> url.Some? && redirected == Redirect(url.value)
    ensures created.Error? ==> s.urlObj == old(s.urlObj)
  {
    created := s.ConvertURL(url, slug, rng, freeAttempt);
    redirected := NotFound("");
    if created.Created? {
      ghost var r := if GeneratesSlug(url, slug, s.isURL)
        then AttemptSlug(rng.draw, old(rng.calls), FirstFreeAttempt(rng.draw, old(rng.calls), old(s.urlObj), 1, freeAttempt))
        else "";
      CreatedShortUrlResolves(old(s.urlObj), url, slug, s.isURL, r);
      var key := created.shortURL[|BaseURL|..];
      redirected := s.RedirectURL(key);
    }
  }

  /**
    A client of `convertURL`: two requests without a slug in a row. Each is
    created, under a generated key that was not a key before, and the two
    keys differ, so the map gains exactly two entries.
    `free1` and `free2` witness that each retry loop meets a free slug.
   */
  method ConvertTwiceWithoutSlug(s: Shortener, url1: Option<string>, url2: Option<string>, rng: Random,
                                 ghost free1: nat, ghost free2: nat)
    returns (first: Response, second: Response)
    requires ValidUrl(url1, s.isURL) && ValidUrl(url2, s.isURL)
    requires EventuallyFree(rng.draw, rng.calls, s.urlObj, free1)
    requires var a1 := FirstFreeAttempt(rng.draw, rng.calls, s.urlObj, 1, free1);
      EventuallyFree(rng.draw, rng.calls + (a1 + 1) * RandomSlugLength,
                     s.urlObj[AttemptSlug(rng.draw, rng.calls, a1) := url1.value], free2)
    modifies s, rng
    ensures first.Created? && second.Created?
    ensures |BaseURL| <= |first.shortURL| && |BaseURL| <= |second.shortURL|
    ensures var k1, k2 := first.shortURL[|BaseURL|..], second.shortURL[|BaseURL|..];
      && k1 != k2 && k1 !in old(s.urlObj) && k2 !in old(s.urlObj)
      && s.urlObj == old(s.urlObj)[k1 := url1.value][k2 := url2.value]
  {
    AbsentSlugFits();
    ghost var m0, c0 := s.urlObj, rng.calls;
    ghost var a1 := FirstFreeAttempt(rng.draw, c0, m0, 1, free1);
    ghost var r1 := AttemptSlug(rng.draw, c0, a1);
    first := s.ConvertURL(url1, None, rng, free1);
    assert s.urlObj == m0[r1 := url1.value] && first.shortURL == BaseURL + r1;
    ghost var m1, c1 := s.urlObj, rng.calls;
    ghost var a2 := FirstFreeAttempt(rng.draw, c1, m1, 1, free2);
    ghost var r2 := AttemptSlug(rng.draw, c1, a2);
    second := s.ConvertURL(url2, None, rng, free2);
    assert s.urlObj == m1[r2 := url2.value] && second.shortURL == BaseURL + r2;
    assert first.shortURL[|BaseURL|..] == r1;
    assert second.shortURL[|BaseURL|..] == r2;
  }

  // ---------------------------------------------------------------------------
  // Properties of convertURL and redirectURL

  /** A slug whose text is longer than 10 is rejected with 400 and the map is unchanged. */
  lemma ConvertRejectsLongSlug(m: map<string, string>, url: Option<string>, slug: Option<string>,
                               isURL: string -> bool, randomSlug: string)
    requires |StringOf(slug)| > 10
    ensures Convert(m, url, slug, isURL, randomSlug) == (Error(SlugTooLongMessage), m)
    ensures Convert(m, url, slug, isURL, randomSlug).0.Status() == 400
  {
  }

  /** An absent slug passes the length check: `String(undefined)` has 9 characters. */
  lemma AbsentSlugFits()
    ensures SlugFits(None) && !Truthy(None)
  {
    assert StringOf(None) == "undefined";
  }

  /** After the length check, a missing, empty or rejected URL gives 400 and no write. */
  lemma ConvertRejectsInvalidUrl(m: map<string, string>, url: Option<string>, slug: Option<string>,
                                 isURL: string -> bool, randomSlug: string)
    requires SlugFits(slug)
    requires url.None? || url.value == "" || !isURL(url.value)
    ensures Convert(m, url, slug, isURL, randomSlug) == (Error(InvalidUrlMessage), m)
  {
  }

  /**
    With no slug (absent or ""), the generated slug, which the retry loop
    guarantees was not a key, now maps to the URL, and every other entry is
    as it was; the response is 201 with the short URL.
   */
  lemma ConvertGeneratedSlug(m: map<string, string>, url: Option<string>, slug: Option<string>,
                             isURL: string -> bool, randomSlug: string)
    requires GeneratesSlug(url, slug, isURL) && randomSlug !in m
    ensures var (resp, m') := Convert(m, url, slug, isURL, randomSlug);
      && resp == Created(BaseURL + randomSlug, url.value) && resp.Status() == 201
      && m'.Keys == m.Keys + {randomSlug}
      && m'[randomSlug] == url.value
      && forall k :: k in m ==> m'[k] == m[k]
  {
  }

  /**
    With an explicit slug, the normalised slug is inserted when absent (201)
    and otherwise the request is refused with 400 and the map is untouched.
   */
  lemma ConvertExplicitSlug(m: map<string, string>, url: Option<string>, slug: Option<string>,
                            isURL: string -> bool, randomSlug: string)
    requires SlugFits(slug) && ValidUrl(url, isURL) && Truthy(slug)
    ensures var key := Normalise(slug.value);
      var (resp, m') := Convert(m, url, slug, isURL, randomSlug);
      && (key !in m ==> resp == Created(BaseURL + key, url.value) && m' == m[key := url.value])
      && (key in m ==> resp == Error(SlugInUseMessage) && m' == m)
  {
  }

  /** `convertURL` succeeds exactly when both checks pass and the slug it would store is free. */
  lemma ConvertSucceedsIff(m: map<string, string>, url: Option<string>, slug: Option<string>,
                           isURL: string -> bool, randomSlug: string)
    requires randomSlug !in m
    ensures Convert(m, url, slug, isURL, randomSlug).0.Created? <==>
      SlugFits(slug) && ValidUrl(url, isURL) && (!Truthy(slug) || Normalise(slug.value) !in m)
  {
  }

  /**
    Every rejection leaves the map as it was, and no call ever removes or
    overwrites an entry: the map only grows, by at most one key.
   */
  lemma ConvertNeverOverwrites(m: map<string, string>, url: Option<string>, slug: Option<string>,
                               isURL: string -> bool, randomSlug: string)
    requires randomSlug !in m
    ensures var (resp, m') := Convert(m, url, slug, isURL, randomSlug);
      && (resp.Error? ==> m' == m)
      && (forall k :: k in m ==> k in m' && m'[k] == m[k])
      && |m'.Keys - m.Keys| <= 1
  {
    var (resp, m') := Convert(m, url, slug, isURL, randomSlug);
    if !SlugFits(slug) || !ValidUrl(url, isURL) {
      assert m' == m;
      assert m'.Keys - m.Keys == {};
    } else {
      var key := if Truthy(slug) then Normalise(slug.value) else randomSlug;
      if key in m {
        assert resp.Error? && m' == m;
        assert m'.Keys - m.Keys == {};
      } else {
        assert resp.Created? && m' == m[key := url.value];
        assert m'.Keys - m.Keys == {key};
      }
    }
  }

  /**
    The round trip: after a successful `convertURL`, the short URL is
    `BaseURL` followed by the stored key, and `redirectURL` on that key
    redirects to exactly the submitted URL.
   */
  lemma CreatedShortUrlResolves(m: map<string, string>, url: Option<string>, slug: Option<string>,
                                isURL: string -> bool, randomSlug: string)
    requires Convert(m, url, slug, isURL, randomSlug).0.Created?
    ensures var (resp, m') := Convert(m, url, slug, isURL, randomSlug);
      && |BaseURL| <= |resp.shortURL| && resp.shortURL[..|BaseURL|] == BaseURL
      && resp.originalURL == url.value
      && Resolve(m', resp.shortURL[|BaseURL|..]) == Redirect(url.value)
  {
    var (resp, m') := Convert(m, url, slug, isURL, randomSlug);
    var key := if Truthy(slug) then Normalise(slug.value) else randomSlug;
    assert resp.shortURL == BaseURL + key;
    assert resp.shortURL[|BaseURL|..] == key;
  }

  /** Two successive random requests on the same map store under two different keys. */
  lemma GeneratedSlugsDiffer(m: map<string, string>, url1: Option<string>, url2: Option<string>,
                             isURL: string -> bool, r1: string, r2: string)
    requires GeneratesSlug(url1, None, isURL) && GeneratesSlug(url2, None, isURL)
    requires r1 !in m && r2 !in Convert(m, url1, None, isURL, r1).1
    ensures r1 != r2
    ensures Convert(m, url1, None, isURL, r1).1.Keys == m.Keys + {r1}
  {
  }

  // ---------------------------------------------------------------------------
  // The controller as written: the map is a plain object

  /** A handler either responds or throws. */
  datatype Outcome = Responded(resp: Response) | Threw(error: string)

  const HasIsNotAFunction: string := "TypeError: urlObj.has is not a function"

  /**
    `convertURL` as written, where `urlObj` is the plain object `{}`: a plain
    object has no `has` method, so every request that passes the two checks
    throws at the first `urlObj.has` call.
   */
  function ConvertAsWritten(url: Option<string>, slug: Option<string>, isURL: string -> bool): (r: Outcome)
    ensures r.Responded? <==> !(SlugFits(slug) && ValidUrl(url, isURL))
    ensures r.Responded? ==> r.resp == Error(SlugTooLongMessage) || r.resp == Error(InvalidUrlMessage)
  {
    if !SlugFits(slug) then Responded(Error(SlugTooLongMessage))
    else if !ValidUrl(url, isURL) then Responded(Error(InvalidUrlMessage))
    else Threw(HasIsNotAFunction)
  }

  /** `redirectURL` as written: `urlObj.has` throws for every slug. */
  function RedirectAsWritten(slug: string): (r: Outcome)
    ensures r.Threw?
  {
    Threw(HasIsNotAFunction)
  }

  /**
    The controller as written never stores a mapping: a valid request throws,
    where the map-based model creates the mapping.
   */
  lemma AsWrittenThrowsOnValidRequest(m: map<string, string>, url: Option<string>, slug: Option<string>,
                                      isURL: string -> bool, randomSlug: string)
    requires SlugFits(slug) && ValidUrl(url, isURL)
    requires randomSlug !in m && (Truthy(slug) ==> Normalise(slug.value) !in m)
    ensures ConvertAsWritten(url, slug, isURL).Threw?
    ensures Convert(m, url, slug, isURL, randomSlug).0.Created?
  {
  }
}
