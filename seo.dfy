/** `src/hooks/useSEO.ts`: the per-page configuration table, the values
    derived from it, and the effect that writes them into the document
    head. */
module Seo {
  import opened Wrappers

  /** One entry of `seoConfigs`. */
  datatype SeoConfig = SeoConfig(titleKey: string, descriptionKey: string, path: Option<string>, image: Option<string>)

  const BaseUrl: string := "https://exform.ci"
  const DefaultImage: string := "/images/hero-bg.jpg"

  /** `seoConfigs`, keyed by page name. */
  const SeoConfigs: map<string, SeoConfig> := map[
    "home" := SeoConfig("seo.home.title", "seo.home.description", Some("/"), Some("/images/hero-bg.jpg")),
    "about" := SeoConfig("seo.about.title", "seo.about.description", Some("/about"), Some("/images/about-hero.jpg")),
    "services" := SeoConfig("seo.services.title", "seo.services.description", Some("/services"), Some("/images/service-construction.jpg")),
    "laboratory" := SeoConfig("seo.laboratory.title", "seo.laboratory.description", Some("/laboratory"), Some("/images/laboratory-hero.jpg")),
    "training" := SeoConfig("seo.training.title", "seo.training.description", Some("/training"), Some("/images/training-hero.jpg")),
    "contact" := SeoConfig("seo.contact.title", "seo.contact.description", Some("/contact"), Some("/images/contact-hero.jpg")),
    "register" := SeoConfig("seo.register.title", "seo.register.description", Some("/register"), Some("/images/training-hero.jpg")),
    "thanks" := SeoConfig("seo.thanks.title", "seo.thanks.description", Some("/thanks"), Some("/images/hero-bg.jpg")),
    "notfound" := SeoConfig("seo.notfound.title", "seo.notfound.description", Some("/404"), Some("/images/hero-bg.jpg"))
  ]

  /** JavaScript's `value || fallback` on an optional string: the fallback
      replaces a missing value and the empty string alike. */
  function OrElse(value: Option<string>, fallback: string): (r: string)
    ensures value.Some? && value.value != [] ==> r == value.value
    ensures value.None? || value.value == [] ==> r == fallback
  {
    if value.Some? && value.value != [] then value.value else fallback
  }

  /** `url`: the base followed by the page path, or by `/`. */
  function PageUrl(c: SeoConfig): string {
    BaseUrl + OrElse(c.path, "/")
  }

  /** `imageUrl`: the base followed by the page image, or by the hero image. */
  function ImageUrl(c: SeoConfig): string {
    BaseUrl + OrElse(c.image, DefaultImage)
  }

  /** `locale` from the language. */
  function Locale(language: string): (r: string)
    ensures r == "fr_CI" <==> language == "fr"
    ensures r == "en_US" <==> language != "fr"
  {
    if language == "fr" then "fr_CI" else "en_US"
  }

  /** Both URLs extend the base with a non-empty path; a missing or empty
      path or image takes the fallback, and a present one is used as is. */
  lemma UrlsExtendBase(c: SeoConfig)
    ensures |PageUrl(c)| > |BaseUrl| && PageUrl(c)[..|BaseUrl|] == BaseUrl
    ensures |ImageUrl(c)| > |BaseUrl| && ImageUrl(c)[..|BaseUrl|] == BaseUrl
    ensures PageUrl(c)[|BaseUrl|..] == (if c.path.Some? && c.path.value != [] then c.path.value else "/")
    ensures ImageUrl(c)[|BaseUrl|..] == (if c.image.Some? && c.image.value != [] then c.image.value else DefaultImage)
  {
  }

  /** Every configured page has a path starting with `/` and an image, so
      neither fallback is ever taken for a page of the table. */
  lemma ConfiguredPagesHavePathAndImage(page: string)
    requires page in SeoConfigs
    ensures var c := SeoConfigs[page];
            && c.path.Some? && |c.path.value| > 0 && c.path.value[0] == '/'
            && c.image.Some? && |c.image.value| > 0 && c.image.value[0] == '/'
            && PageUrl(c) == BaseUrl + c.path.value
            && ImageUrl(c) == BaseUrl + c.image.value
  {
  }

  /** The values the effect computes before touching the document. */
  datatype SeoValues = SeoValues(title: string, description: string, url: string, imageUrl: string, locale: string)

  function Computed(c: SeoConfig, translate: (string, string) -> string, language: string): (v: SeoValues)
    ensures v.title == translate(language, c.titleKey)
    ensures v.description == translate(language, c.descriptionKey)
    ensures v.url == PageUrl(c) && v.imageUrl == ImageUrl(c)
    ensures v.locale == Locale(language)
  {
    SeoValues(translate(language, c.titleKey), translate(language, c.descriptionKey), PageUrl(c), ImageUrl(c), Locale(language))
  }

  /** The thirteen head elements the effect looks up, one per selector. */
  datatype Selector =
    | MetaDescription | CanonicalLink
    | OgTitle | OgDescription | OgUrl | OgImage | OgLocale | OgType | OgSiteName
    | TwitterTitle | TwitterDescription | TwitterImage | TwitterCard

  /** The CSS selector passed to `document.querySelector` for each element. */
  function SelectorText(s: Selector): string {
    match s
    case MetaDescription => "meta[name=\"description\"]"
    case CanonicalLink => "link[rel=\"canonical\"]"
    case OgTitle => "meta[property=\"og:title\"]"
    case OgDescription => "meta[property=\"og:description\"]"
    case OgUrl => "meta[property=\"og:url\"]"
    case OgImage => "meta[property=\"og:image\"]"
    case OgLocale => "meta[property=\"og:locale\"]"
    case OgType => "meta[property=\"og:type\"]"
    case OgSiteName => "meta[property=\"og:site_name\"]"
    case TwitterTitle => "meta[name=\"twitter:title\"]"
    case TwitterDescription => "meta[name=\"twitter:description\"]"
    case TwitterImage => "meta[name=\"twitter:image\"]"
    case TwitterCard => "meta[name=\"twitter:card\"]"
  }

  /** The thirteen selector texts are pairwise different. (Two of them may
      still match the same element; the head map treats them as two.) */
  lemma SelectorTextInjective(a: Selector, b: Selector)
    ensures SelectorText(a) == SelectorText(b) ==> a == b
  {
  }

  /** An attribute name: the two the effect writes, and any other. */
  datatype AttributeName = Content | Href | Named(name: string)

  /** The attributes of one element. */
  type Attributes = map<AttributeName, string>

  /** The attribute the effect sets on each element: `href` on the
      canonical link, `content` on every meta tag. */
  function AttributeOf(s: Selector): AttributeName {
    if s == CanonicalLink then Href else Content
  }

  /** The value the effect writes into each element. */
  function ValueOf(s: Selector, v: SeoValues): string {
    match s
    case MetaDescription => v.description
    case CanonicalLink => v.url
    case OgTitle => v.title
    case OgDescription => v.description
    case OgUrl => v.url
    case OgImage => v.imageUrl
    case OgLocale => v.locale
    case OgType => "website"
    case OgSiteName => "EXFORM"
    case TwitterTitle => v.title
    case TwitterDescription => v.description
    case TwitterImage => v.imageUrl
    case TwitterCard => "summary_large_image"
  }

  /** `element.setAttribute(attribute, value)` on the element a selector
      finds; a selector that finds nothing leaves the head as it is. */
  function WithAttribute(tags: map<Selector, Attributes>, s: Selector, attribute: AttributeName, value: string): map<Selector, Attributes> {
    if s in tags then tags[s := tags[s][attribute := value]] else tags
  }

  /** The head after the effect: every element present gets its attribute
      set, other attributes stay, and no element is added. */
  function SeoTags(tags: map<Selector, Attributes>, v: SeoValues): map<Selector, Attributes> {
    map s | s in tags :: tags[s][AttributeOf(s) := ValueOf(s, v)]
  }

  /** The effect never adds an element; on each element present it sets
      that element's attribute to its value, and it keeps every other
      attribute and adds none. */
  lemma SeoTagsUpdateInPlace(tags: map<Selector, Attributes>, v: SeoValues)
    ensures var r := SeoTags(tags, v);
            && r.Keys == tags.Keys
            && (forall s :: s in r ==> AttributeOf(s) in r[s] && r[s][AttributeOf(s)] == ValueOf(s, v))
            && (forall s, a :: s in r && a in tags[s] && a != AttributeOf(s) ==> a in r[s] && r[s][a] == tags[s][a])
            && (forall s, a :: s in r && a in r[s] ==> a in tags[s] || a == AttributeOf(s))
  {
  }

  /** The shared texts: the title and the description are written to their
      Open Graph and Twitter tags alike, the URL to the canonical link and
      `og:url`, the image to both image tags, and the three fixed tags get
      their constants. */
  lemma SeoTagsShareTexts(tags: map<Selector, Attributes>, v: SeoValues)
    ensures var r := SeoTags(tags, v);
            && (OgTitle in tags ==> r[OgTitle] == tags[OgTitle][Content := v.title])
            && (TwitterTitle in tags ==> r[TwitterTitle] == tags[TwitterTitle][Content := v.title])
            && (MetaDescription in tags ==> r[MetaDescription] == tags[MetaDescription][Content := v.description])
            && (OgDescription in tags ==> r[OgDescription] == tags[OgDescription][Content := v.description])
            && (TwitterDescription in tags ==> r[TwitterDescription] == tags[TwitterDescription][Content := v.description])
            && (CanonicalLink in tags ==> r[CanonicalLink] == tags[CanonicalLink][Href := v.url])
            && (OgUrl in tags ==> r[OgUrl] == tags[OgUrl][Content := v.url])
            && (OgImage in tags ==> r[OgImage] == tags[OgImage][Content := v.imageUrl])
            && (TwitterImage in tags ==> r[TwitterImage] == tags[TwitterImage][Content := v.imageUrl])
            && (OgLocale in tags ==> r[OgLocale] == tags[OgLocale][Content := v.locale])
            && (OgType in tags ==> r[OgType] == tags[OgType][Content := "website"])
            && (OgSiteName in tags ==> r[OgSiteName] == tags[OgSiteName][Content := "EXFORM"])
            && (TwitterCard in tags ==> r[TwitterCard] == tags[TwitterCard][Content := "summary_large_image"])
  {
  }

  /** The description and canonical-link updates. */
  function WriteHead(tags: map<Selector, Attributes>, v: SeoValues): map<Selector, Attributes> {
    WithAttribute(WithAttribute(tags, MetaDescription, Content, v.description), CanonicalLink, Href, v.url)
  }

  /** The seven Open Graph updates. */
  function WriteOpenGraph(tags: map<Selector, Attributes>, v: SeoValues): map<Selector, Attributes> {
    WithAttribute(WithAttribute(WithAttribute(WithAttribute(WithAttribute(WithAttribute(WithAttribute(tags, OgTitle, Content, v.title), OgDescription, Content, v.description), OgUrl, Content, v.url), OgImage, Content, v.imageUrl), OgLocale, Content, v.locale), OgType, Content, "website"), OgSiteName, Content, "EXFORM")
  }

  /** The four Twitter card updates. */
  function WriteTwitterCard(tags: map<Selector, Attributes>, v: SeoValues): map<Selector, Attributes> {
    WithAttribute(WithAttribute(WithAttribute(WithAttribute(tags, TwitterTitle, Content, v.title), TwitterDescription, Content, v.description), TwitterImage, Content, v.imageUrl), TwitterCard, Content, "summary_large_image")
  }

  /** The thirteen updates in the order the effect performs them. */
  function WriteAll(tags: map<Selector, Attributes>, v: SeoValues): map<Selector, Attributes> {
    WriteTwitterCard(WriteOpenGraph(WriteHead(tags, v), v), v)
  }

  /** Setting one attribute keeps the elements and changes only that one. */
  lemma WithAttributeAt(tags: map<Selector, Attributes>, s: Selector, attribute: AttributeName, value: string, o: Selector)
    requires o in tags
    ensures var r := WithAttribute(tags, s, attribute, value);
            && o in r
            && r[o] == if o == s then tags[o][attribute := value] else tags[o]
  {
  }

  /** Setting an attribute never adds or removes an element. */
  lemma WithAttributeKeys(tags: map<Selector, Attributes>, s: Selector, attribute: AttributeName, value: string)
    ensures WithAttribute(tags, s, attribute, value).Keys == tags.Keys
  {
  }

  /** The selectors each section of the effect writes. */
  predicate InHead(o: Selector) { o.MetaDescription? || o.CanonicalLink? }
  predicate InOpenGraph(o: Selector) { o.OgTitle? || o.OgDescription? || o.OgUrl? || o.OgImage? || o.OgLocale? || o.OgType? || o.OgSiteName? }
  predicate InTwitterCard(o: Selector) { o.TwitterTitle? || o.TwitterDescription? || o.TwitterImage? || o.TwitterCard? }

  /** The first section sets the description and the canonical link. */
  lemma WriteHeadKeys(tags: map<Selector, Attributes>, v: SeoValues)
    ensures WriteHead(tags, v).Keys == tags.Keys
  {
    var t0 := tags;
    var t1 := WithAttribute(t0, MetaDescription, Content, v.description);
    var t2 := WithAttribute(t1, CanonicalLink, Href, v.url);
    WithAttributeKeys(t0, MetaDescription, Content, v.description);
    WithAttributeKeys(t1, CanonicalLink, Href, v.url);
    assert WriteHead(tags, v) == t2;
  }

  lemma WriteHeadAt(tags: map<Selector, Attributes>, v: SeoValues, o: Selector)
    requires o in tags
    ensures o in WriteHead(tags, v)
    ensures WriteHead(tags, v)[o] == if InHead(o) then tags[o][AttributeOf(o) := ValueOf(o, v)] else tags[o]
  {
    var t0 := tags;
    var t1 := WithAttribute(t0, MetaDescription, Content, v.description);
    var t2 := WithAttribute(t1, CanonicalLink, Href, v.url);
    WithAttributeAt(t0, MetaDescription, Content, v.description, o);
    WithAttributeAt(t1, CanonicalLink, Href, v.url, o);
    assert WriteHead(tags, v) == t2;
  }

  /** The Open Graph section sets its seven tags. */
  lemma WriteOpenGraphKeys(tags: map<Selector, Attributes>, v: SeoValues)
    ensures WriteOpenGraph(tags, v).Keys == tags.Keys
  {
    var t0 := tags;
    var t1 := WithAttribute(t0, OgTitle, Content, v.title);
    var t2 := WithAttribute(t1, OgDescription, Content, v.description);
    var t3 := WithAttribute(t2, OgUrl, Content, v.url);
    var t4 := WithAttribute(t3, OgImage, Content, v.imageUrl);
    var t5 := WithAttribute(t4, OgLocale, Content, v.locale);
    var t6 := WithAttribute(t5, OgType, Content, "website");
    var t7 := WithAttribute(t6, OgSiteName, Content, "EXFORM");
    WithAttributeKeys(t0, OgTitle, Content, v.title);
    WithAttributeKeys(t1, OgDescription, Content, v.description);
    WithAttributeKeys(t2, OgUrl, Content, v.url);
    WithAttributeKeys(t3, OgImage, Content, v.imageUrl);
    WithAttributeKeys(t4, OgLocale, Content, v.locale);
    WithAttributeKeys(t5, OgType, Content, "website");
    WithAttributeKeys(t6, OgSiteName, Content, "EXFORM");
    assert WriteOpenGraph(tags, v) == t7;
  }

  lemma WriteOpenGraphAt(tags: map<Selector, Attributes>, v: SeoValues, o: Selector)
    requires o in tags
    ensures o in WriteOpenGraph(tags, v)
    ensures WriteOpenGraph(tags, v)[o] == if InOpenGraph(o) then tags[o][AttributeOf(o) := ValueOf(o, v)] else tags[o]
  {
    var t0 := tags;
    var t1 := WithAttribute(t0, OgTitle, Content, v.title);
    var t2 := WithAttribute(t1, OgDescription, Content, v.description);
    var t3 := WithAttribute(t2, OgUrl, Content, v.url);
    var t4 := WithAttribute(t3, OgImage, Content, v.imageUrl);
    var t5 := WithAttribute(t4, OgLocale, Content, v.locale);
    var t6 := WithAttribute(t5, OgType, Content, "website");
    var t7 := WithAttribute(t6, OgSiteName, Content, "EXFORM");
    WithAttributeAt(t0, OgTitle, Content, v.title, o);
    WithAttributeAt(t1, OgDescription, Content, v.description, o);
    WithAttributeAt(t2, OgUrl, Content, v.url, o);
    WithAttributeAt(t3, OgImage, Content, v.imageUrl, o);
    WithAttributeAt(t4, OgLocale, Content, v.locale, o);
    WithAttributeAt(t5, OgType, Content, "website", o);
    WithAttributeAt(t6, OgSiteName, Content, "EXFORM", o);
    assert WriteOpenGraph(tags, v) == t7;
  }

  /** The Twitter card section sets its four tags. */
  lemma WriteTwitterCardKeys(tags: map<Selector, Attributes>, v: SeoValues)
    ensures WriteTwitterCard(tags, v).Keys == tags.Keys
  {
    var t0 := tags;
    var t1 := WithAttribute(t0, TwitterTitle, Content, v.title);
    var t2 := WithAttribute(t1, TwitterDescription, Content, v.description);
    var t3 := WithAttribute(t2, TwitterImage, Content, v.imageUrl);
    var t4 := WithAttribute(t3, TwitterCard, Content, "summary_large_image");
    WithAttributeKeys(t0, TwitterTitle, Content, v.title);
    WithAttributeKeys(t1, TwitterDescription, Content, v.description);
    WithAttributeKeys(t2, TwitterImage, Content, v.imageUrl);
    WithAttributeKeys(t3, TwitterCard, Content, "summary_large_image");
    assert WriteTwitterCard(tags, v) == t4;
  }

  lemma WriteTwitterCardAt(tags: map<Selector, Attributes>, v: SeoValues, o: Selector)
    requires o in tags
    ensures o in WriteTwitterCard(tags, v)
    ensures WriteTwitterCard(tags, v)[o] == if InTwitterCard(o) then tags[o][AttributeOf(o) := ValueOf(o, v)] else tags[o]
  {
    var t0 := tags;
    var t1 := WithAttribute(t0, TwitterTitle, Content, v.title);
    var t2 := WithAttribute(t1, TwitterDescription, Content, v.description);
    var t3 := WithAttribute(t2, TwitterImage, Content, v.imageUrl);
    var t4 := WithAttribute(t3, TwitterCard, Content, "summary_large_image");
    WithAttributeAt(t0, TwitterTitle, Content, v.title, o);
    WithAttributeAt(t1, TwitterDescription, Content, v.description, o);
    WithAttributeAt(t2, TwitterImage, Content, v.imageUrl, o);
    WithAttributeAt(t3, TwitterCard, Content, "summary_large_image", o);
    assert WriteTwitterCard(tags, v) == t4;
  }

  /** After the effect's updates, each element present carries its value:
      exactly one section writes it. */
  lemma WriteAllAt(tags: map<Selector, Attributes>, v: SeoValues, o: Selector)
    requires o in tags
    ensures o in WriteAll(tags, v)
    ensures WriteAll(tags, v)[o] == tags[o][AttributeOf(o) := ValueOf(o, v)]
  {
    var h := WriteHead(tags, v);
    var g := WriteOpenGraph(h, v);
    WriteHeadAt(tags, v, o);
    WriteOpenGraphAt(h, v, o);
    WriteTwitterCardAt(g, v, o);
    assert InHead(o) || InOpenGraph(o) || InTwitterCard(o);
  }

  /** The effect never adds or removes an element. */
  lemma WriteAllKeys(tags: map<Selector, Attributes>, v: SeoValues)
    ensures WriteAll(tags, v).Keys == tags.Keys
  {
    var h := WriteHead(tags, v);
    WriteHeadKeys(tags, v);
    WriteOpenGraphKeys(h, v);
    WriteTwitterCardKeys(WriteOpenGraph(h, v), v);
  }

  /** The effect's thirteen updates, in order, give the final head. */
  lemma WriteAllIsSeoTags(tags: map<Selector, Attributes>, v: SeoValues)
    ensures WriteAll(tags, v) == SeoTags(tags, v)
  {
    WriteAllKeys(tags, v);
    forall o | o in tags
      ensures WriteAll(tags, v)[o] == SeoTags(tags, v)[o]
    {
      WriteAllAt(tags, v, o);
    }
  }

  /** The parts of the document the effect touches. */
  class Document {
    var title: string
    /** `document.documentElement.lang`. */
    var lang: string
    /** The first element matching each selector, when there is one. */
    var tags: map<Selector, Attributes>

    constructor (title: string, lang: string, tags: map<Selector, Attributes>)
      ensures this.title == title && this.lang == lang && this.tags == tags
    {
      this.title := title;
      this.lang := lang;
      this.tags := tags;
    }

    /** Sets one attribute of the element a selector finds; nothing when
        there is no such element. */
    method SetAttribute(s: Selector, attribute: AttributeName, value: string)
      modifies this`tags
      ensures tags == WithAttribute(old(tags), s, attribute, value)
    {
      if s in tags {
        tags := tags[s := tags[s][attribute := value]];
      }
    }

    /** `updateMetaTag(selector, content)`. */
    method UpdateMetaTag(s: Selector, content: string)
      modifies this`tags
      ensures tags == WithAttribute(old(tags), s, Content, content)
    {
      SetAttribute(s, Content, content);
    }

    /** The effect of `useSEO(page)`: a page without a configuration leaves
        the document as it is. */
    method ApplySeo(page: string, translate: (string, string) -> string, language: string)
      modifies this
      ensures page !in SeoConfigs ==> title == old(title) && lang == old(lang) && tags == old(tags)
      ensures page in SeoConfigs ==>
                var v := Computed(SeoConfigs[page], translate, language);
                && title == v.title && lang == language
                && tags == WriteAll(old(tags), v)
                && tags == SeoTags(old(tags), v)
    {
      if page !in SeoConfigs {
        return;
      }
      var v := Computed(SeoConfigs[page], translate, language);
      title := v.title;
      // The description and the canonical link.
      SetAttribute(MetaDescription, Content, v.description);
      SetAttribute(CanonicalLink, Href, v.url);

      // The Open Graph tags.
      UpdateMetaTag(OgTitle, v.title);
      UpdateMetaTag(OgDescription, v.description);
      UpdateMetaTag(OgUrl, v.url);
      UpdateMetaTag(OgImage, v.imageUrl);
      UpdateMetaTag(OgLocale, v.locale);
      UpdateMetaTag(OgType, "website");
      UpdateMetaTag(OgSiteName, "EXFORM");

      // The Twitter card tags.
      UpdateMetaTag(TwitterTitle, v.title);
      UpdateMetaTag(TwitterDescription, v.description);
      UpdateMetaTag(TwitterImage, v.imageUrl);
      UpdateMetaTag(TwitterCard, "summary_large_image");

      lang := language;
      WriteAllIsSeoTags(old(tags), v);
    }
  }
}
