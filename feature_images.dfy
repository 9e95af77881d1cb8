/**
 * The `feature-images` endpoint of the trends router: the refined query, the search query built
 * from it, and the two comprehensions that turn image search results into at most six URLs.
 * The query refinement and the image search are inputs.
 */
module FeatureImages {
  import opened Wrappers
  import opened Text
  import opened Json

  const MaxImages: nat := 6

  /** The AttributeError raised when `name` is looked up on a value that lacks it. */
  function NoAttribute(v: Value, name: string): string {
    "'" + TypeName(v) + "' object has no attribute '" + name + "'"
  }

  /** `img.get("original") or img.get("thumbnail")`, when that is truthy. */
  function Candidate(img: Fields): (c: Option<Value>)
    ensures c.Some? <==> Truthy(GetOr(img, "original", VNull)) || Truthy(GetOr(img, "thumbnail", VNull))
    ensures Truthy(GetOr(img, "original", VNull)) ==> c == Some(GetOr(img, "original", VNull))
    ensures !Truthy(GetOr(img, "original", VNull)) && c.Some? ==> c == Some(GetOr(img, "thumbnail", VNull))
    ensures c.Some? ==> Truthy(c.value)
  {
    var original := GetOr(img, "original", VNull);
    var thumbnail := GetOr(img, "thumbnail", VNull);
    if Truthy(original) then Some(original)
    else if Truthy(thumbnail) then Some(thumbnail)
    else None
  }

  /** `v` is the candidate of one of the images. */
  predicate CandidateOfSome(images: seq<Value>, v: Value) {
    exists i | 0 <= i < |images| :: images[i].VObj? && Candidate(images[i].fields) == Some(v)
  }

  /** The first comprehension: the candidate of each image that has one; a non-dictionary image raises. */
  function Candidates(images: seq<Value>): (r: Result<seq<Value>, string>)
    ensures r.Ok? <==> AllObjects(images)
    ensures r.Ok? ==> forall v | v in r.value :: Truthy(v) && CandidateOfSome(images, v)
    ensures r.Ok? ==> |r.value| <= |images|
  {
    if images == [] then Ok([])
    else
      match images[0]
      case VObj(f) =>
        var rest := Candidates(images[1..]);
        assert AllObjects(images) <==> AllObjects(images[1..]) by {
          if AllObjects(images[1..]) {
            forall i | 0 <= i < |images| ensures images[i].VObj? {
              if i > 0 { assert images[i] == images[1..][i - 1]; }
            }
          }
        }
        (match rest
         case Ok(cs) =>
           var out := (if Candidate(f).Some? then [Candidate(f).value] else []) + cs;
           assert forall v | v in cs :: CandidateOfSome(images, v) by {
             forall v | v in cs ensures CandidateOfSome(images, v) {
               var i :| 0 <= i < |images[1..]| && images[1..][i].VObj? && Candidate(images[1..][i].fields) == Some(v);
               assert images[i + 1] == images[1..][i];
             }
           }
           assert Candidate(f).Some? ==> images[0].VObj? && Candidate(images[0].fields) == Some(Candidate(f).value);
           Ok(out)
         case Err(e) => Err(e))
      case other => Err(NoAttribute(other, "get"))
  }

  /**
   * `u and u.startswith("http")` skips a falsy candidate before it looks for `startswith`, which
   * only a string has.
   */
  predicate TruthyAreStrings(vs: seq<Value>) { forall i | 0 <= i < |vs| :: Truthy(vs[i]) ==> vs[i].VStr? }

  /** The second comprehension: the candidates that are strings starting with "http", in order. */
  function HttpUrls(candidates: seq<Value>): (r: Result<seq<string>, string>)
    ensures r.Ok? <==> TruthyAreStrings(candidates)
    ensures r.Ok? ==> forall u | u in r.value :: StartsWith(u, "http") && VStr(u) in candidates
    ensures r.Ok? ==> forall i | 0 <= i < |candidates| && candidates[i].VStr? && StartsWith(candidates[i].s, "http") :: candidates[i].s in r.value
  {
    if candidates == [] then Ok([])
    else
      var c := candidates[0];
      var rest := HttpUrls(candidates[1..]);
      assert TruthyAreStrings(candidates) <==> (Truthy(c) ==> c.VStr?) && TruthyAreStrings(candidates[1..]) by {
        if (Truthy(c) ==> c.VStr?) && TruthyAreStrings(candidates[1..]) {
          forall i | 0 <= i < |candidates| ensures Truthy(candidates[i]) ==> candidates[i].VStr? {
            if i > 0 { assert candidates[i] == candidates[1..][i - 1]; }
          }
        }
      }
      assert forall i | 1 <= i < |candidates| :: candidates[i] == candidates[1..][i - 1];
      assert c.VStr? && StartsWith(c.s, "http") ==> Truthy(c);
      if !Truthy(c) then rest
      else if c.VStr? then
        (match rest
         case Ok(us) => Ok(if StartsWith(c.s, "http") then [c.s] + us else us)
         case Err(e) => Err(e))
      else Err(NoAttribute(c, "startswith"))
  }

  /** `image_urls[:6] if image_urls else []` over both comprehensions. */
  function FeatureImageUrls(images: seq<Value>): (r: Result<seq<string>, string>)
    ensures r.Ok? <==> Candidates(images).Ok? && HttpUrls(Candidates(images).value).Ok?
    ensures r.Ok? ==> var us := HttpUrls(Candidates(images).value).value;
      && |r.value| == (if |us| < MaxImages then |us| else MaxImages)
      && r.value == us[..|r.value|]
    ensures r.Ok? ==> |r.value| <= MaxImages
    ensures r.Ok? ==> forall u | u in r.value :: StartsWith(u, "http") && CandidateOfSome(images, VStr(u))
  {
    match Candidates(images)
    case Err(e) => Err(e)
    case Ok(cs) =>
      match HttpUrls(cs)
      case Err(e) => Err(e)
      case Ok(us) =>
        var shown := if |us| <= MaxImages then us else us[..MaxImages];
        assert forall u | u in shown :: u in us;
        Ok(shown)
  }

  /** The first comprehension distributes over a split of the search results. */
  lemma {:induction false} CandidatesAppend(a: seq<Value>, b: seq<Value>)
    requires AllObjects(a) && AllObjects(b)
    ensures Candidates(a + b) == Ok(Candidates(a).value + Candidates(b).value)
  {
    if a == [] {
      assert a + b == b && Candidates(a) == Ok([]);
      assert [] + Candidates(b).value == Candidates(b).value;
    } else {
      assert (a + b)[0] == a[0] && (a + b)[1..] == a[1..] + b;
      assert AllObjects(a[1..]) by {
        forall i | 0 <= i < |a[1..]| ensures a[1..][i].VObj? { assert a[1..][i] == a[i + 1]; }
      }
      assert AllObjects(a + b) by {
        forall i | 0 <= i < |a + b| ensures (a + b)[i].VObj? {
          if i < |a| { assert (a + b)[i] == a[i]; } else { assert (a + b)[i] == b[i - |a|]; }
        }
      }
      CandidatesAppend(a[1..], b);
      var head := if Candidate(a[0].fields).Some? then [Candidate(a[0].fields).value] else [];
      assert head + (Candidates(a[1..]).value + Candidates(b).value) == (head + Candidates(a[1..]).value) + Candidates(b).value;
    }
  }

  /** The second comprehension distributes over a split of the candidates. */
  lemma {:induction false} HttpUrlsAppend(a: seq<Value>, b: seq<Value>)
    requires TruthyAreStrings(a) && TruthyAreStrings(b)
    ensures HttpUrls(a + b) == Ok(HttpUrls(a).value + HttpUrls(b).value)
  {
    if a == [] {
      assert a + b == b && HttpUrls(a) == Ok([]);
      assert [] + HttpUrls(b).value == HttpUrls(b).value;
    } else {
      assert (a + b)[0] == a[0] && (a + b)[1..] == a[1..] + b;
      assert TruthyAreStrings(a[1..]) by {
        forall i | 0 <= i < |a[1..]| ensures Truthy(a[1..][i]) ==> a[1..][i].VStr? { assert a[1..][i] == a[i + 1]; }
      }
      assert TruthyAreStrings(a + b) by {
        forall i | 0 <= i < |a + b| ensures Truthy((a + b)[i]) ==> (a + b)[i].VStr? {
          if i < |a| { assert (a + b)[i] == a[i]; } else { assert (a + b)[i] == b[i - |a|]; }
        }
      }
      HttpUrlsAppend(a[1..], b);
      var head := if Truthy(a[0]) && StartsWith(a[0].s, "http") then [a[0].s] else [];
      assert head + (HttpUrls(a[1..]).value + HttpUrls(b).value) == (head + HttpUrls(a[1..]).value) + HttpUrls(b).value;
    }
  }

  /** The URLs of one image, keeping the original over the thumbnail. */
  lemma SingleImageUrls(img: Fields)
    requires Candidate(img).Some? ==> Candidate(img).value.VStr?
    ensures var c := Candidate(img);
      FeatureImageUrls([VObj(img)]) ==
        Ok(if c.Some? && StartsWith(c.value.s, "http") then [c.value.s] else [])
  {
    var c := Candidate(img);
    assert [VObj(img)][1..] == [];
    var cs := if c.Some? then [c.value] else [];
    assert Candidates([VObj(img)]) == Ok(cs + []);
    assert cs + [] == cs;
    if c.Some? {
      assert cs[1..] == [];
      assert [c.value.s] + [] == [c.value.s];
      assert HttpUrls(cs) == Ok(if StartsWith(c.value.s, "http") then [c.value.s] else []);
    } else {
      assert HttpUrls(cs) == Ok([]);
    }
  }

  // ---------------------------------------------------------------------------------------------
  // The endpoint
  // ---------------------------------------------------------------------------------------------

  /** What the refinement call produced: the reply content, or the exception text. */
  datatype RefineReply = RefineFailed(error: string) | Refined(content: string)

  /** What the image search produced for a query: `images_results`, or the exception text. */
  datatype ImageSearch = SearchFailed(error: string) | ImagesFound(images: seq<Value>)

  datatype FeatureImagesReply =
    | Images(feature: string, category: string, refinedQuery: string, images: seq<string>)
    | ImagesError(feature: string, category: string, error: string)

  function SearchQuery(refinedQuery: string, category: string): string {
    "best selling " + refinedQuery + " " + category + " fashion site:myntra.com OR site:amazon.in OR site:flipkart.com"
  }

  /** get_feature_images: every failure becomes the error reply; success carries at most six http URLs. */
  function GetFeatureImages(feature: string, category: string, refine: RefineReply,
                            search: string -> ImageSearch): (r: FeatureImagesReply)
    ensures r.feature == feature && r.category == category
    ensures r.Images? ==> refine.Refined? && r.refinedQuery == Strip(refine.content)
    ensures r.Images? ==> |r.images| <= MaxImages && forall u | u in r.images :: StartsWith(u, "http")
    ensures r.Images? ==>
      && search(SearchQuery(r.refinedQuery, category)).ImagesFound?
      && Ok(r.images) == FeatureImageUrls(search(SearchQuery(r.refinedQuery, category)).images)
    ensures refine.RefineFailed? ==> r == ImagesError(feature, category, refine.error)
    ensures refine.Refined? && search(SearchQuery(Strip(refine.content), category)).SearchFailed? ==>
      r == ImagesError(feature, category, search(SearchQuery(Strip(refine.content), category)).error)
    ensures refine.Refined? ==> var found := search(SearchQuery(Strip(refine.content), category));
      found.ImagesFound? && FeatureImageUrls(found.images).Err? ==>
        r == ImagesError(feature, category, FeatureImageUrls(found.images).error)
    ensures refine.Refined? ==> var q := Strip(refine.content);
      (r.Images? <==> search(SearchQuery(q, category)).ImagesFound?
                      && FeatureImageUrls(search(SearchQuery(q, category)).images).Ok?)
  {
    match refine
    case RefineFailed(e) => ImagesError(feature, category, e)
    case Refined(content) =>
      var q := Strip(content);
      match search(SearchQuery(q, category))
      case SearchFailed(e) => ImagesError(feature, category, e)
      case ImagesFound(images) =>
        match FeatureImageUrls(images)
        case Err(e) => ImagesError(feature, category, e)
        case Ok(urls) => Images(feature, category, q, urls)
  }
}
