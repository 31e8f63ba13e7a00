/** Brief synthesis: the tier lookup, the feature merge, the page list, the
    human-readable brief (as its lines), the machine-readable record, and the
    two gates in front of generation. */
module Brief {
  import opened Text

  /** A tier of the catalogue: its label, page budget, bundled features and
      call to action. The label is the field `name` here, since `label` is a
      reserved word in Dafny. */
  datatype Tier = Tier(name: string, pages: int, features: seq<string>, cta: string)

  /** The page settings the brief needs (cfg.app and cfg.safety). */
  datatype Config = Config(version: string, defaultLanguage: string, requireConsent: bool)

  /** What the form holds when Generate is pressed; answerInputs maps each
      interview question id to the raw text of its input. */
  datatype Form = Form(
    lang: string, tierSelection: string, industry: string, consent: bool,
    continuous: bool, interim: bool, vision: string, answerInputs: map<string, string>)

  /** The data object generate() assembles for buildBrief and buildJSON. */
  datatype GenerationData = GenerationData(
    lang: string, tierKey: string, tier: Tier, industry: string, consent: bool,
    continuous: bool, interim: bool, vision: string, answers: map<string, string>)

  // ---------- tiers ----------

  function TierKey(selection: string): string {
    if selection != [] then selection else "starter"
  }

  function DefaultTier(key: string): Tier {
    Tier(key, 3, [], "Launch")
  }

  /** getTier: the catalogue entry for the selected key, else a three-page
      tier labelled with the key itself. */
  function GetTier(tiers: map<string, Tier>, selection: string): (t: Tier)
    ensures TierKey(selection) in tiers ==> t == tiers[TierKey(selection)]
    ensures TierKey(selection) !in tiers ==>
      (t.name == TierKey(selection) && t.pages == 3 && t.features == [] && t.cta == "Launch")
  {
    var key := TierKey(selection);
    if key in tiers then tiers[key] else DefaultTier(key)
  }

  // ---------- features ----------

  predicate NoDuplicates(xs: seq<string>) {
    forall i, j :: 0 <= i < j < |xs| ==> xs[i] != xs[j]
  }

  /** [...new Set(xs)]: each value once, at its first occurrence. */
  function Dedup(xs: seq<string>): (r: seq<string>)
    ensures NoDuplicates(r)
    ensures forall x :: x in r <==> x in xs
    ensures |r| <= |xs|
  {
    if xs == [] then []
    else
      var d := Dedup(xs[..|xs| - 1]);
      assert forall x :: x in xs <==> x in xs[..|xs| - 1] || x == xs[|xs| - 1];
      if xs[|xs| - 1] in d then d else d + [xs[|xs| - 1]]
  }

  /** Deduplicating a longer list never reorders or drops what the shorter
      list's deduplication already produced. */
  lemma {:induction false} DedupPrefix(a: seq<string>, b: seq<string>)
    ensures Dedup(a) <= Dedup(a + b)
    decreases |b|
  {
    if b == [] {
      assert a + b == a;
    } else {
      var b' := b[..|b| - 1];
      DedupPrefix(a, b');
      assert (a + b)[..|a + b| - 1] == a + b';
    }
  }

  /** A list without repeats is left as it is. */
  lemma {:induction false} DedupDistinct(xs: seq<string>)
    requires NoDuplicates(xs)
    ensures Dedup(xs) == xs
    decreases |xs|
  {
    if xs != [] {
      var init := xs[..|xs| - 1];
      DedupDistinct(init);
      assert xs[|xs| - 1] !in init;
      assert init + [xs[|xs| - 1]] == xs;
    }
  }

  const BriefFeatureCap := 30
  const RecordFeatureCap := 50

  /** The features the user typed into the "features" answer. */
  function WantedFeatures(answers: map<string, string>): seq<string> {
    NormalizeList(Answer(answers, "features"))
  }

  function Answer(answers: map<string, string>, id: string): string {
    if id in answers then answers[id] else ""
  }

  /** The tier's features then the user's, without repeats, cut at cap. */
  function MergeFeatures(tierFeatures: seq<string>, wanted: seq<string>, cap: nat): (r: seq<string>)
    ensures NoDuplicates(r)
    ensures |r| <= cap
    ensures forall x :: x in r ==> x in tierFeatures || x in wanted
    ensures |Dedup(tierFeatures + wanted)| <= cap ==>
      forall x :: x in tierFeatures || x in wanted ==> x in r
    ensures r <= Dedup(tierFeatures + wanted)
    ensures |r| == if |Dedup(tierFeatures + wanted)| < cap then |Dedup(tierFeatures + wanted)| else cap
  {
    var all := Dedup(tierFeatures + wanted);
    assert forall x :: x in tierFeatures + wanted <==> x in tierFeatures || x in wanted;
    var r := SliceTo(all, cap);
    assert forall i, j :: 0 <= i < j < |r| ==> r[i] == all[i] && r[j] == all[j];
    r
  }

  /** Tier features come first: the tier's own deduplicated features, up to
      the cap, open the merged list; a tier list without repeats that fits
      appears unchanged at its head. */
  lemma TierFeaturesFirst(tierFeatures: seq<string>, wanted: seq<string>, cap: nat)
    ensures SliceTo(Dedup(tierFeatures), cap) <= MergeFeatures(tierFeatures, wanted, cap)
    ensures NoDuplicates(tierFeatures) && |tierFeatures| <= cap ==>
      tierFeatures <= MergeFeatures(tierFeatures, wanted, cap)
  {
    var all := Dedup(tierFeatures + wanted);
    var own := Dedup(tierFeatures);
    DedupPrefix(tierFeatures, wanted);
    assert MergeFeatures(tierFeatures, wanted, cap) == SliceTo(all, cap);
    SlicePrefix(own, all, cap);
    if NoDuplicates(tierFeatures) && |tierFeatures| <= cap {
      DedupDistinct(tierFeatures);
      assert SliceTo(own, cap) == tierFeatures;
    }
  }

  /** Cutting two lists at the same point keeps one a prefix of the other. */
  lemma SlicePrefix(a: seq<string>, b: seq<string>, cap: nat)
    requires a <= b
    ensures SliceTo(a, cap) <= SliceTo(b, cap)
  {
    var sa, sb := SliceTo(a, cap), SliceTo(b, cap);
    assert forall i :: 0 <= i < |sa| ==> sa[i] == a[i] == b[i] == sb[i];
  }

  /** The features listed in the brief. */
  function MustHave(data: GenerationData): seq<string> {
    MergeFeatures(data.tier.features, WantedFeatures(data.answers), BriefFeatureCap)
  }

  /** The required features of the record. */
  function RecordFeatures(data: GenerationData): seq<string> {
    MergeFeatures(data.tier.features, WantedFeatures(data.answers), RecordFeatureCap)
  }

  /** The brief's list is the first 30 of the record's list of up to 50. */
  lemma BriefFeaturesPrefixRecord(data: GenerationData)
    ensures MustHave(data) == SliceTo(RecordFeatures(data), BriefFeatureCap)
  {
  }

  // ---------- pages ----------

  const BasePages: seq<string> := [
    "Home (high-converting hero + CTA)",
    "About (trust + story)",
    "Contact (form + map/CTA)"
  ]

  /** The pages pushed at 5, 7 and 10 pages respectively. */
  const ServicePages: seq<string> := ["Services / Offers", "Testimonials / Reviews"]
  const BookingPages: seq<string> := ["Booking / Calendar", "FAQ"]
  const ResourcePages: seq<string> := ["Resources / Blog", "Policies (Privacy/Terms)", "Lead Magnet / Download"]

  /** The candidate pages: three base pages, two more from 5 pages, two more
      from 7, three more from 10. */
  function PageList(pageCount: int): (r: seq<string>)
    ensures BasePages <= r && |r| <= 10
  {
    BasePages
    + (if pageCount >= 5 then ServicePages else [])
    + (if pageCount >= 7 then BookingPages else [])
    + (if pageCount >= 10 then ResourcePages else [])
  }

  /** The page list as buildBrief builds it: the base pages, then one push per
      threshold the budget reaches. */
  method BuildPages(pageCount: int) returns (pages: seq<string>)
    ensures pages == PageList(pageCount)
    ensures |pages| == 3 + (if pageCount >= 5 then 2 else 0) + (if pageCount >= 7 then 2 else 0)
      + (if pageCount >= 10 then 3 else 0)
  {
    pages := BasePages;
    if pageCount >= 5 {
      pages := pages + ServicePages;
    }
    if pageCount >= 7 {
      pages := pages + BookingPages;
    }
    if pageCount >= 10 {
      pages := pages + ResourcePages;
    }
  }

  /** A larger page budget only ever adds candidate pages at the end. */
  lemma PageListMonotone(p: int, q: int)
    requires p <= q
    ensures PageList(p) <= PageList(q)
  {
  }

  /** pages.slice(0, t.pages): the pages the brief lists. */
  function Sitemap(pageCount: int): seq<string>
  {
    SliceTo(PageList(pageCount), pageCount)
  }

  /** For a non-negative budget the sitemap has min(budget, candidates) entries,
      never more than the budget. */
  lemma SitemapSize(pageCount: int)
    requires pageCount >= 0
    ensures |Sitemap(pageCount)| == if pageCount < |PageList(pageCount)| then pageCount else |PageList(pageCount)|
    ensures |Sitemap(pageCount)| <= pageCount
  {
  }

  /** A larger non-negative budget never yields fewer pages: the smaller
      sitemap is a prefix of the larger one. */
  lemma SitemapMonotone(p: int, q: int)
    requires 0 <= p <= q
    ensures Sitemap(p) <= Sitemap(q)
  {
    PageListMonotone(p, q);
    assert PageList(p) == PageList(q)[..|PageList(p)|];
  }

  // ---------- the brief ----------

  function Digit(d: nat): (c: char)
    requires d < 10
    ensures '0' <= c <= '9' && c as int - '0' as int == d
  {
    "0123456789"[d]
  }

  /** The number a string of decimal digits denotes, read left to right. */
  function DigitsValue(s: string): nat
    requires forall i :: 0 <= i < |s| ==> '0' <= s[i] <= '9'
  {
    if s == [] then 0
    else DigitsValue(s[..|s| - 1]) * 10 + (s[|s| - 1] as int - '0' as int)
  }

  /** Decimal digits of n, as a template literal prints them: they denote n,
      with no leading zero. */
  function NatToString(n: nat): (s: string)
    ensures s != [] && forall i :: 0 <= i < |s| ==> '0' <= s[i] <= '9'
    ensures DigitsValue(s) == n
    ensures (|s| > 1 || n > 0) ==> s[0] != '0'
  {
    if n < 10 then [Digit(n)] else NatToString(n / 10) + [Digit(n % 10)]
  }

  function IntToString(i: int): string {
    if i < 0 then "-" + NatToString(-i) else NatToString(i)
  }

  function Bullets(items: seq<string>): (lines: seq<string>)
    ensures |lines| == |items|
    ensures forall i :: 0 <= i < |items| ==> lines[i] == "- " + items[i]
  {
    seq(|items|, i requires 0 <= i < |items| => "- " + items[i])
  }

  function Numbered(items: seq<string>): (lines: seq<string>)
    ensures |lines| == |items|
    ensures forall i :: 0 <= i < |items| ==> lines[i] == NatToString(i + 1) + ". " + items[i]
  {
    seq(|items|, i requires 0 <= i < |items| => NatToString(i + 1) + ". " + items[i])
  }

  const FallbackFeature := "Basic site + contact form"

  /** Section 2: one bullet per feature, or one fallback bullet. */
  function FeatureLines(data: GenerationData): (r: seq<string>)
    ensures |r| >= 1
    ensures forall i :: 0 <= i < |r| ==> |r[i]| >= 2 && r[i][..2] == "- "
  {
    var m := MustHave(data);
    if |m| > 0 then Bullets(m)
    else
      var joined := Join(data.tier.features, ", ");
      ["- " + (if joined != [] then joined else FallbackFeature)]
  }

  /** With no features at all the section is the single fallback line;
      otherwise it is one bullet per merged feature. */
  lemma FeatureLinesShape(data: GenerationData)
    ensures MustHave(data) == [] ==> FeatureLines(data) == ["- " + FallbackFeature]
    ensures MustHave(data) != [] ==> FeatureLines(data) == Bullets(MustHave(data))
  {
    var tf := data.tier.features;
    if MustHave(data) == [] && tf != [] {
      assert false;
    }
  }

  /** The business_type answer, else "<industry> business", else a generic
      phrase: never empty. */
  function Business(data: GenerationData): (b: string)
    ensures b != []
    ensures Answer(data.answers, "business_type") != [] ==> b == Answer(data.answers, "business_type")
    ensures Answer(data.answers, "business_type") == [] && data.industry != [] ==>
      b == data.industry + BusinessSuffix
    ensures Answer(data.answers, "business_type") == [] && data.industry == [] ==> b == BusinessFallback
  {
    var given := Answer(data.answers, "business_type");
    if given != [] then given
    else if data.industry != [] then data.industry + BusinessSuffix
    else BusinessFallback
  }

  const BusinessSuffix := " business"
  const BusinessFallback := "a service business"

  const GoalFallback := "Generate leads and convert visitors into customers."

  /** The primary_goal answer, else the fixed lead-generation goal: never empty. */
  function Goal(data: GenerationData): (g: string)
    ensures g != []
    ensures Answer(data.answers, "primary_goal") != [] ==> g == Answer(data.answers, "primary_goal")
    ensures Answer(data.answers, "primary_goal") == [] ==> g == GoalFallback
  {
    var given := Answer(data.answers, "primary_goal");
    if given != [] then given else GoalFallback
  }

  const VibeHints: seq<string> := [
    "Modern, premium, dark fintech UI",
    "Fast, mobile-first, accessible",
    "Clear CTAs, strong trust signals",
    "SEO-ready structure"
  ]

  const Subhead := "Subhead: \U{201C}Turn visitors into leads with a clean UX, strong messaging, and automation.\U{201D}"
  const PrimaryCta := "Primary CTA: \U{201C}Get a Free Quote\U{201D} / \U{201C}Book a Call\U{201D} / \U{201C}Start Now\U{201D}"
  const TrustLine := "Trust: badges, reviews, before/after results, process steps"

  /** The copy blocks: a headline built from the tier's call to action and the
      business, then three fixed lines. */
  function CopyBlocks(data: GenerationData): (r: seq<string>)
    ensures |r| == 4 && r[1..] == [Subhead, PrimaryCta, TrustLine]
    ensures r[0] == HeadlineOpen + data.tier.cta + ": " + Business(data) + HeadlineClose
  {
    [HeadlineOpen + data.tier.cta + ": " + Business(data) + HeadlineClose,
     Subhead, PrimaryCta, TrustLine]
  }

  const HeadlineOpen := "Headline: \U{201C}"
  const HeadlineClose := " website that converts.\U{201D}"

  const Title := "AI ALL EARS \U{2014} BUILD-READY WEBSITE PROJECT BRIEF"
  const Section1Heading := "1) Business & Goal"
  const Section2Heading := "2) Must-Have Features"
  const SitemapHeading := "3) Suggested Pages / Sitemap"
  const Section5Heading := "5) Content / Copy Blocks"
  const EndLine := "END OF BRIEF"

  /** Sections 4, 6 and 7, which do not depend on the form. */
  const DesignSection: seq<string> := ["", "4) Design & UX Direction"] + Bullets(VibeHints)
  const TechnicalSection: seq<string> := [
    "",
    "6) Technical Notes",
    "- Stack: static HTML/CSS/JS (GitHub Pages ready)",
    "- Forms: Formspree / Netlify Forms alternative (optional)",
    "- Analytics: GA4 + Search Console (optional)",
    "- Performance: compress images, lazy-load, minimal JS"
  ]
  const NextActionsSection: seq<string> := [
    "",
    "7) Next Actions",
    "- Confirm brand name, logo, colors, and 3 competitors you like",
    "- Provide offer/pricing + service area + contact info",
    "- Approve the sitemap + must-have features list",
    "",
    EndLine
  ]

  /** Section 1, up to the heading of section 2. */
  function Summary(data: GenerationData): (r: seq<string>)
    ensures |r| == 8
    ensures r[..2] == ["", Section1Heading] && r[6..] == ["", Section2Heading]
    ensures r[2] == "- Business: " + Business(data)
    ensures r[3] == "- Primary goal: " + Goal(data)
    ensures r[4] == "- Industry keyword: " + (if data.industry != [] then data.industry else "\U{2014}")
    ensures r[5] == "- Tier: " + data.tier.name + " (" + IntToString(data.tier.pages) + " pages)"
  {
    [
      "",
      Section1Heading,
      "- Business: " + Business(data),
      "- Primary goal: " + Goal(data),
      "- Industry keyword: " + (if data.industry != [] then data.industry else "\U{2014}"),
      "- Tier: " + data.tier.name + " (" + IntToString(data.tier.pages) + " pages)",
      "",
      Section2Heading
    ]
  }

  /** Sections 4 to 7 and the end marker. */
  function Closing(data: GenerationData): (r: seq<string>)
    ensures |r| == 25 && r[24] == EndLine
    ensures r[..6] == DesignSection
    ensures r[6..8] == ["", Section5Heading]
    ensures r[8..12] == Bullets(CopyBlocks(data))
    ensures r[12..] == TechnicalSection + NextActionsSection
  {
    DesignSection + ["", Section5Heading] + Bullets(CopyBlocks(data))
    + TechnicalSection + NextActionsSection
  }

  /** Everything below the timestamp line. */
  function Body(data: GenerationData): (r: seq<string>)
    ensures |r| == 35 + |FeatureLines(data)| + |Sitemap(data.tier.pages)|
  {
    Summary(data) + FeatureLines(data) + ["", SitemapHeading]
    + Numbered(Sitemap(data.tier.pages)) + Closing(data)
  }

  /** buildBrief, as its lines (the page joins them with "\n"); the clock
      reading is the parameter generatedAt. */
  function BuildBrief(data: GenerationData, generatedAt: string): (r: seq<string>)
    ensures |r| == 37 + |FeatureLines(data)| + |Sitemap(data.tier.pages)|
    ensures r[0] == Title && r[1] == "Generated: " + generatedAt
  {
    [Title, "Generated: " + generatedAt] + Body(data)
  }

  /** Where the parts of a brief end up once they are concatenated. */
  lemma PartPositions(head: seq<string>, summary: seq<string>, features: seq<string>,
                      heading: seq<string>, pages: seq<string>, closing: seq<string>)
    requires |head| == 2 && |summary| == 8 && |heading| == 2 && |closing| == 25
    ensures var doc := head + (summary + features + heading + pages + closing);
      var f := |features|;
      && |doc| == 37 + f + |pages|
      && doc[0] == head[0] && doc[1] == head[1]
      && doc[2..10] == summary
      && doc[10..10 + f] == features
      && doc[10 + f] == heading[0] && doc[11 + f] == heading[1]
      && doc[12 + f..12 + f + |pages|] == pages
      && doc[12 + f + |pages|..] == closing
      && doc[|doc| - 1] == closing[24]
  {
    var doc := head + (summary + features + heading + pages + closing);
    var f := |features|;
    assert forall k :: 0 <= k < 8 ==> doc[2 + k] == summary[k];
    assert forall k :: 0 <= k < 25 ==> doc[12 + f + |pages| + k] == closing[k];
    assert forall k :: 0 <= k < f ==> doc[10 + k] == features[k];
    assert forall k :: 0 <= k < |pages| ==> doc[12 + f + k] == pages[k];
  }

  /** The fixed layout: the title, the timestamp, section 1, the features, the
      sitemap heading, the numbered pages, then 25 fixed closing lines ending
      in "END OF BRIEF". */
  lemma BriefLayout(data: GenerationData, generatedAt: string)
    ensures var doc := BuildBrief(data, generatedAt);
      var f := |FeatureLines(data)|;
      var p := |Sitemap(data.tier.pages)|;
      && |doc| == 37 + f + p
      && doc[0] == Title
      && doc[1] == "Generated: " + generatedAt
      && doc[2..10] == Summary(data)
      && doc[10..10 + f] == FeatureLines(data)
      && doc[10 + f] == "" && doc[11 + f] == SitemapHeading
      && doc[12 + f..12 + f + p] == Numbered(Sitemap(data.tier.pages))
      && doc[12 + f + p..] == Closing(data)
      && doc[|doc| - 1] == EndLine
  {
    var head := [Title, "Generated: " + generatedAt];
    var pages := Numbered(Sitemap(data.tier.pages));
    BriefParts(data, generatedAt);
    PartPositions(head, Summary(data), FeatureLines(data), ["", SitemapHeading], pages, Closing(data));
  }

  lemma BriefParts(data: GenerationData, generatedAt: string)
    ensures BuildBrief(data, generatedAt) == [Title, "Generated: " + generatedAt]
      + (Summary(data) + FeatureLines(data) + ["", SitemapHeading] + Numbered(Sitemap(data.tier.pages)) + Closing(data))
  {
  }

  /** Only the timestamp line depends on the clock: two briefs from the same
      data share the title and every line after the timestamp. */
  lemma BriefDeterministic(data: GenerationData, t1: string, t2: string)
    ensures |BuildBrief(data, t1)| == |BuildBrief(data, t2)|
    ensures BuildBrief(data, t1)[0] == BuildBrief(data, t2)[0] == Title
    ensures BuildBrief(data, t1)[2..] == BuildBrief(data, t2)[2..]
  {
    assert BuildBrief(data, t1)[2..] == Body(data);
    assert BuildBrief(data, t2)[2..] == Body(data);
  }

  // ---------- the record ----------

  datatype Meta = Meta(tool: string, version: string, generatedAt: string)
  datatype Voice = Voice(continuous: bool, livePreview: bool)
  datatype Inputs = Inputs(
    language: string, tierKey: string, tierLabel: string, pages: int,
    industry: string, consent: bool, voice: Voice)
  datatype Interview = Interview(questions: seq<string>, answers: map<string, string>)
  datatype BuildSpec = BuildSpec(
    requiredFeatures: seq<string>, recommendedStack: seq<string>, deliverables: seq<string>)
  datatype BriefRecord = BriefRecord(
    meta: Meta, inputs: Inputs, interview: Interview, vision: string, spec: BuildSpec)

  const RecommendedStack: seq<string> := ["HTML", "CSS", "JavaScript", "GitHub Pages"]
  const Deliverables: seq<string> :=
    ["High-converting homepage", "Sitemap / page list", "Content blocks + CTA plan", "Basic SEO checklist"]

  /** buildJSON, before serialisation; questions is the configured question
      table, passed through as it is. */
  function BuildRecord(cfg: Config, data: GenerationData, questions: seq<string>, generatedAt: string): (r: BriefRecord)
    ensures NoDuplicates(r.spec.requiredFeatures) && |r.spec.requiredFeatures| <= RecordFeatureCap
    ensures r.inputs.tierLabel == data.tier.name && r.inputs.pages == data.tier.pages
    ensures r.interview.answers == data.answers && r.vision == data.vision
    ensures r.inputs == Inputs(data.lang, data.tierKey, data.tier.name, data.tier.pages, data.industry,
                               data.consent, Voice(data.continuous, data.interim))
    ensures r.meta.tool == "AI All Ears" && r.meta.generatedAt == generatedAt
    ensures r.meta.version == if cfg.version != [] then cfg.version else "1.0"
    ensures r.interview.questions == questions
    ensures r.spec.requiredFeatures == RecordFeatures(data)
    ensures r.spec.recommendedStack == RecommendedStack && r.spec.deliverables == Deliverables
  {
    BriefRecord(
      Meta("AI All Ears", if cfg.version != [] then cfg.version else "1.0", generatedAt),
      Inputs(data.lang, data.tierKey, data.tier.name, data.tier.pages, data.industry,
             data.consent, Voice(data.continuous, data.interim)),
      Interview(questions, data.answers),
      data.vision,
      BuildSpec(
        RecordFeatures(data),
        RecommendedStack, Deliverables))
  }

  /** The record and the brief list the same features: the brief shows the
      first 30 of the record's. */
  lemma RecordAgreesWithBrief(cfg: Config, data: GenerationData, questions: seq<string>, t: string)
    ensures MustHave(data) == SliceTo(BuildRecord(cfg, data, questions, t).spec.requiredFeatures, BriefFeatureCap)
  {
    BriefFeaturesPrefixRecord(data);
  }

  // ---------- generation ----------

  /** collectAnswers: every answer trimmed. */
  function CollectAnswers(inputs: map<string, string>): (answers: map<string, string>)
    ensures answers.Keys == inputs.Keys
    ensures forall id :: id in answers ==> answers[id] == Trim(inputs[id])
  {
    map id | id in inputs :: Trim(inputs[id])
  }

  /** The data object of generate: the language with its two fallbacks, the
      selected tier, the industry and the vision trimmed, the answers collected. */
  function CollectData(cfg: Config, tiers: map<string, Tier>, form: Form): (data: GenerationData)
    ensures data.lang != []
    ensures form.lang != [] ==> data.lang == form.lang
    ensures form.lang == [] && cfg.defaultLanguage != [] ==> data.lang == cfg.defaultLanguage
    ensures form.lang == [] && cfg.defaultLanguage == [] ==> data.lang == "en-US"
    ensures data.consent == form.consent && data.continuous == form.continuous && data.interim == form.interim
    ensures data.tierKey == TierKey(form.tierSelection) && data.tier == GetTier(tiers, form.tierSelection)
    ensures data.industry == Trim(form.industry) && data.vision == Trim(form.vision)
    ensures data.answers == CollectAnswers(form.answerInputs)
  {
    GenerationData(
      if form.lang != [] then form.lang
      else if cfg.defaultLanguage != [] then cfg.defaultLanguage else "en-US",
      TierKey(form.tierSelection),
      GetTier(tiers, form.tierSelection),
      Trim(form.industry),
      form.consent, form.continuous, form.interim,
      Trim(form.vision),
      CollectAnswers(form.answerInputs))
  }

  /** The guidance messages that take the place of a brief. */
  datatype Notice = ConsentRequired | NothingToSummarise

  datatype GeneratedBrief = GeneratedBrief(document: seq<string>, record: BriefRecord)

  datatype Outcome = Generated(brief: GeneratedBrief) | Refused(notice: Notice)

  /** requireConsentOrWarn */
  predicate ConsentGiven(cfg: Config, form: Form) {
    !cfg.requireConsent || form.consent
  }

  predicate HasContent(data: GenerationData) {
    data.vision != [] || exists id :: id in data.answers && data.answers[id] != []
  }

  /** generate: the consent gate, then the "something to work with" gate, then
      the brief and the record from the same data. localTime and isoTime are
      the two clock readings the page formats. */
  function Generate(cfg: Config, tiers: map<string, Tier>, questions: seq<string>, form: Form,
                    localTime: string, isoTime: string): (r: Outcome)
    ensures r == Refused(ConsentRequired) <==> !ConsentGiven(cfg, form)
    ensures r == Refused(NothingToSummarise) <==>
      ConsentGiven(cfg, form) && AllDelims(Whitespace, form.vision)
      && forall id :: id in form.answerInputs ==> AllDelims(Whitespace, form.answerInputs[id])
    ensures r.Generated? ==>
      var data := CollectData(cfg, tiers, form);
      && r.brief.document == BuildBrief(data, localTime)
      && r.brief.record == BuildRecord(cfg, data, questions, isoTime)
  {
    if !ConsentGiven(cfg, form) then Refused(ConsentRequired)
    else
      var data := CollectData(cfg, tiers, form);
      if !HasContent(data) then Refused(NothingToSummarise)
      else Generated(GeneratedBrief(BuildBrief(data, localTime), BuildRecord(cfg, data, questions, isoTime)))
  }
}
