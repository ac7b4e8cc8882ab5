/**
  The earlier challenge version of the URL shortener controller: a module-level
  `Map`, a six-character random slug stored without a collision check, a
  presence check on the raw slug followed by an unconditional insert under the
  normalised slug, and `redirectURL`.
 */
module ChallengeShortener {
  import opened Js
  import opened Slugs

  /** The prefix the success message puts before the slug. */
  const BaseURL: string := "http://localhost:3000/url/"

  /** The `length` constant of `getRandomSlug`; the loop runs `counter` = 0..5. */
  const RandomSlugLast: nat := 5

  /** How many characters one `getRandomSlug` call draws. */
  const RandomSlugLength: nat := RandomSlugLast + 1

  const SlugInUseMessage: string := "Slug already in use"
  const NotFoundSuffix: string := " Not found, please enter a valid slug"

  /** What a handler sends back. */
  datatype Response =
    | Converted(shortURL: string)
    | Error(msg: string)
    | Redirect(url: string)
    | NotFound(msg: string)
  {
    /** The HTTP status: `res.send` without `status` answers 200, and a miss is a 400 here. */
    function Status(): int
    {
      match this
      case Converted(_) => 200
      case Error(_) => 400
      case Redirect(_) => 302
      case NotFound(_) => 400
    }
  }

  /**
    The outcome of `convertURL` on map `m`: the response and the new map.
    `randomSlug` is the generated slug; it is read only when the request
    carries no slug. The URL is stored as given, without validation.
   */
  function Convert(m: map<string, string>, url: string, slug: Option<string>, randomSlug: string)
    : (Response, map<string, string>)
  {
    if !Truthy(slug) then (Converted(BaseURL + randomSlug), m[randomSlug := url])
    else if slug.value in m then (Error(SlugInUseMessage), m)
    else
      var userSlug := Normalise(slug.value);
      (Converted(BaseURL + userSlug), m[userSlug := url])
  }

  /** The outcome of `redirectURL` on map `m`; the lookup uses the raw slug. */
  function Resolve(m: map<string, string>, slug: string): Response
  {
    if slug in m then Redirect(m[slug]) else NotFound(slug + NotFoundSuffix)
  }

  /** `getRandomSlug`: six characters, each from the 62-character alphabet. */
  method GetRandomSlug(rng: Random) returns (slug: string)
    modifies rng
    ensures rng.calls == old(rng.calls) + RandomSlugLength
    ensures slug == DrawnSlug(rng.draw, old(rng.calls), RandomSlugLength)
    ensures |slug| == 6 && InAlphabet(slug)
  {
    slug := RandomSlug(rng, RandomSlugLast);
  }

  /** The module state: the `urls` map. */
  class Shortener {
    var urls: map<string, string>

    constructor ()
      ensures urls == map[]
    {
      urls := map[];
    }

    /** `convertURL`: one random draw when there is no slug, none otherwise. */
    method ConvertURL(url: string, slug: Option<string>, rng: Random) returns (resp: Response)
      modifies this, rng
      ensures !Truthy(slug) ==>
        && rng.calls == old(rng.calls) + RandomSlugLength
        && (resp, urls) == Convert(old(urls), url, slug, DrawnSlug(rng.draw, old(rng.calls), RandomSlugLength))
      ensures Truthy(slug) ==>
        && rng.calls == old(rng.calls)
        && (resp, urls) == Convert(old(urls), url, slug, "")
    {
      if !Truthy(slug) {
        var randomSlug := GetRandomSlug(rng);
        urls := urls[randomSlug := url];
        resp := Converted(BaseURL + randomSlug);
      } else {
        if slug.value in urls {
          resp := Error(SlugInUseMessage);
        } else {
          var userSlug := Normalise(slug.value);
          urls := urls[userSlug := url];
          resp := Converted(BaseURL + userSlug);
        }
      }
    }

    /** `redirectURL`: looks the raw slug up and never changes the map. */
    method RedirectURL(slug: string) returns (resp: Response)
      ensures slug in urls ==> resp == Redirect(urls[slug])
      ensures slug !in urls ==> resp == NotFound(slug + " Not found, please enter a valid slug") && resp.Status() == 400
      ensures resp == Resolve(urls, slug)
    {
      if slug in urls {
        resp := Redirect(urls[slug]);
      } else {
        resp := NotFound(slug + NotFoundSuffix);
      }
    }
  }

  // ---------------------------------------------------------------------------
  // Properties of convertURL and redirectURL

  /**
    With no slug, the random slug is set to the URL without a collision
    check: an entry already under that key is replaced, every other key is
    kept.
   */
  lemma ConvertGeneratedSlug(m: map<string, string>, url: string, slug: Option<string>, randomSlug: string)
    requires !Truthy(slug)
    ensures var (resp, m') := Convert(m, url, slug, randomSlug);
      && resp == Converted(BaseURL + randomSlug) && resp.Status() == 200
      && m'.Keys == m.Keys + {randomSlug}
      && m'[randomSlug] == url
      && forall k :: k in m && k != randomSlug ==> m'[k] == m[k]
  {
  }

  /** A raw slug that is already a key is refused with 400 and the map is unchanged. */
  lemma ConvertRawSlugInUse(m: map<string, string>, url: string, slug: Option<string>, randomSlug: string)
    requires Truthy(slug) && slug.value in m
    ensures Convert(m, url, slug, randomSlug) == (Error(SlugInUseMessage), m)
  {
  }

  /**
    A raw slug that is not a key leads to an unconditional write of the URL,
    as given, under the normalised slug.
   */
  lemma ConvertNormalisedInsert(m: map<string, string>, url: string, slug: Option<string>, randomSlug: string)
    requires Truthy(slug) && slug.value !in m
    ensures var key := Normalise(slug.value);
      Convert(m, url, slug, randomSlug) == (Converted(BaseURL + key), m[key := url])
  {
  }

  /** Whatever URL the request carries is what a success stores; nothing validates it. */
  lemma ConvertStoresUrlVerbatim(m: map<string, string>, url: string, slug: Option<string>, randomSlug: string)
    requires Convert(m, url, slug, randomSlug).0.Converted?
    ensures var (resp, m') := Convert(m, url, slug, randomSlug);
      var key := resp.shortURL[|BaseURL|..];
      && resp.shortURL == BaseURL + key
      && key in m' && m'[key] == url
      && Resolve(m', key) == Redirect(url)
  {
    var (resp, m') := Convert(m, url, slug, randomSlug);
    var key := if Truthy(slug) then Normalise(slug.value) else randomSlug;
    assert resp.shortURL == BaseURL + key;
    assert resp.shortURL[|BaseURL|..] == key;
  }

  /**
    The raw-slug check lets "My Slug" through while "my-slug" is taken, and
    the insert under the normalised key overwrites the existing mapping.
   */
  lemma NormalisedSlugOverwrites(m: map<string, string>, oldUrl: string, newUrl: string)
    requires m == map["my-slug" := oldUrl] && oldUrl != newUrl
    ensures var (resp, m') := Convert(m, newUrl, Some("My Slug"), "");
      && resp == Converted(BaseURL + "my-slug")
      && m'["my-slug"] == newUrl != m["my-slug"]
  {
    NormaliseMySlug();
    assert "My Slug" != "my-slug" by { assert "My Slug"[0] != "my-slug"[0]; }
  }

  /** A generated slug that is already a key replaces that key's URL. */
  lemma GeneratedSlugOverwrites(m: map<string, string>, url: string, randomSlug: string)
    requires randomSlug in m && m[randomSlug] != url
    ensures var (resp, m') := Convert(m, url, None, randomSlug);
      resp.Converted? && m'[randomSlug] == url != m[randomSlug]
  {
  }
}
