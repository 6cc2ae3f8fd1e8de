/** The image API's prompt catalogue: fifteen predefined prompts, the
    choice of prompt for a generation request, the lookups by id and by
    category, and the in-memory cache of sample images keyed by prompt id.
    The image model and the sample-image files are parameters. */
module PromptCatalogue {
  import opened Common

  /** An entry of `PREDEFINED_PROMPTS`. */
  datatype Prompt = Prompt(id: int, text: string, category: string, style: string)

  const Predefined: seq<Prompt> := [
    Prompt(0, "A futuristic cityscape with neon lights and flying cars, digital art style", "futuristic", "digital art"),
    Prompt(1, "A serene mountain landscape at sunset with golden clouds, oil painting style", "nature", "oil painting"),
    Prompt(2, "A cyberpunk warrior with glowing armor in a dark alley, concept art", "cyberpunk", "concept art"),
    Prompt(3, "A magical forest with glowing mushrooms and fairy lights, fantasy art", "fantasy", "fantasy art"),
    Prompt(4, "A steampunk airship flying over Victorian London, detailed illustration", "steampunk", "detailed illustration"),
    Prompt(5, "A cute robot playing with a cat in a cozy room, cartoon style", "cute", "cartoon"),
    Prompt(6, "A space station orbiting Earth with stars in background, sci-fi art", "sci-fi", "sci-fi art"),
    Prompt(7, "A medieval castle on a hill with dragons flying overhead, fantasy", "fantasy", "fantasy"),
    Prompt(8, "A modern abstract composition with geometric shapes and vibrant colors", "abstract", "modern"),
    Prompt(9, "A peaceful garden with cherry blossoms and a small pond, watercolor style", "nature", "watercolor"),
    Prompt(10, "A superhero in a dynamic pose with energy effects, comic book style", "superhero", "comic book"),
    Prompt(11, "A cozy coffee shop interior with warm lighting and people, realistic", "realistic", "realistic"),
    Prompt(12, "A mystical crystal cave with glowing crystals and magical atmosphere", "fantasy", "mystical"),
    Prompt(13, "A vintage car driving through a desert landscape at golden hour", "vintage", "realistic"),
    Prompt(14, "A fantasy character with magical staff and flowing robes, RPG art", "fantasy", "RPG art")
  ]

  /** Every entry's id is its position in the list. */
  lemma IdsArePositions()
    ensures |Predefined| == 15
    ensures forall i :: 0 <= i < |Predefined| ==> Predefined[i].id == i
  {
  }

  /** The `promptData` of a response: a predefined entry, or the custom
      record whose id is None. */
  datatype PromptData = PromptData(id: Option<int>, text: string, category: string, style: string)

  function DataOf(p: Prompt): PromptData {
    PromptData(Some(p.id), p.text, p.category, p.style)
  }

  function CustomData(text: string): PromptData {
    PromptData(None, text, "custom", "custom")
  }

  /** The body of `POST /generate-image`: both fields are optional. */
  datatype GenerateRequest = GenerateRequest(promptIndex: Option<int>, prompt: Option<string>)

  predicate IndexInRange(index: Option<int>) {
    index.Some? && 0 <= index.value < |Predefined|
  }

  /** The prompt `generate_image` uses. A non-empty custom prompt wins;
      then an index inside the list; otherwise `random.choice`, whose pick
      is the parameter `randomPick`. */
  function SelectPrompt(req: GenerateRequest, randomPick: nat): (d: PromptData)
    requires randomPick < |Predefined|
    ensures Truthy(req.prompt) ==> d == CustomData(req.prompt.value)
    ensures !Truthy(req.prompt) && IndexInRange(req.promptIndex) ==> d == DataOf(Predefined[req.promptIndex.value])
    ensures !Truthy(req.prompt) && !IndexInRange(req.promptIndex) ==> d == DataOf(Predefined[randomPick])
  {
    if Truthy(req.prompt) then CustomData(req.prompt.value)
    else if IndexInRange(req.promptIndex) then DataOf(Predefined[req.promptIndex.value])
    else DataOf(Predefined[randomPick])
  }

  /** The selected prompt has no id exactly when it is custom, and an id
      it has names the list entry it came from: an empty custom prompt or
      a bad index never leads to an error. */
  lemma SelectedPromptIsListedUnlessCustom(req: GenerateRequest, randomPick: nat)
    requires randomPick < |Predefined|
    ensures SelectPrompt(req, randomPick).id.None? <==> Truthy(req.prompt)
    ensures SelectPrompt(req, randomPick).id.Some? ==>
      var i := SelectPrompt(req, randomPick).id.value;
      0 <= i < |Predefined| && DataOf(Predefined[i]) == SelectPrompt(req, randomPick)
  {
    IdsArePositions();
  }

  /** A valid index decides the prompt whatever the random pick. */
  lemma IndexedSelectionIsDeterministic(i: int, a: nat, b: nat)
    requires 0 <= i < |Predefined| && a < |Predefined| && b < |Predefined|
    ensures SelectPrompt(GenerateRequest(Some(i), None), a) == SelectPrompt(GenerateRequest(Some(i), None), b)
    ensures SelectPrompt(GenerateRequest(Some(i), Some("")), a).id == Some(i)
  {
    IdsArePositions();
  }

  /** A successful generation's payload. */
  datatype Generated = Generated(imageData: string, prompt: string, promptData: PromptData, description: string)

  /** `generate_image`: the model is a function from prompt text to the
      encoded image, or to the exception's text. */
  function GenerateImage(req: GenerateRequest, randomPick: nat, model: string -> Response<string>): (r: Response<Generated>)
    requires randomPick < |Predefined|
    ensures var d := SelectPrompt(req, randomPick);
      && (r.Ok? <==> model(d.text).Ok?)
      && (r.Ok? ==> r.value == Generated(model(d.text).value, d.text, d, "Image generated from prompt: '" + d.text + "'"))
      && (r.Err? ==> r.message == model(d.text).message)
  {
    var d := SelectPrompt(req, randomPick);
    match model(d.text)
    case Ok(image) => Ok(Generated(image, d.text, d, "Image generated from prompt: '" + d.text + "'"))
    case Err(e) => Err(e)
  }

  /** `generate_random_image`: always a predefined prompt. */
  function GenerateRandom(randomPick: nat, model: string -> Response<string>): (r: Response<Generated>)
    requires randomPick < |Predefined|
    ensures r.Ok? <==> model(Predefined[randomPick].text).Ok?
    ensures r.Ok? ==> r.value.imageData == model(Predefined[randomPick].text).value
    ensures r.Ok? ==> r.value.prompt == Predefined[randomPick].text
    ensures r.Ok? ==> r.value.promptData == DataOf(Predefined[randomPick])
    ensures r.Ok? ==> r.value.description == "Random image generated from: '" + Predefined[randomPick].text + "'"
    ensures r.Err? ==> r.message == model(Predefined[randomPick].text).message
  {
    var p := Predefined[randomPick];
    match model(p.text)
    case Ok(image) => Ok(Generated(image, p.text, DataOf(p), "Random image generated from: '" + p.text + "'"))
    case Err(e) => Err(e)
  }

  /** Decimal digits, as Python's `str` writes a non-negative int. */
  predicate IsDigit(c: char) {
    '0' <= c <= '9'
  }

  function DigitChar(d: nat): char
    requires d < 10
  {
    ('0' as int + d) as char
  }

  function Digits(n: nat): (s: string)
    ensures |s| >= 1
    ensures forall i :: 0 <= i < |s| ==> IsDigit(s[i])
    decreases n
  {
    if n < 10 then [DigitChar(n)] else Digits(n / 10) + [DigitChar(n % 10)]
  }

  /** Reading decimal digits back, the inverse of `Digits`. */
  function ParseDigits(s: string): nat
    requires forall i :: 0 <= i < |s| ==> IsDigit(s[i])
  {
    if s == [] then 0
    else ParseDigits(s[..|s| - 1]) * 10 + DigitValue(s[|s| - 1])
  }

  function DigitValue(c: char): nat
    requires IsDigit(c)
  {
    c as int - '0' as int
  }

  lemma {:induction false} DigitsRoundTrip(n: nat)
    ensures ParseDigits(Digits(n)) == n
    decreases n
  {
    if n >= 10 {
      var s := Digits(n);
      assert s[..|s| - 1] == Digits(n / 10);
      DigitsRoundTrip(n / 10);
    }
  }

  /** `str(prompt_id)`. */
  function IntToString(i: int): string {
    if i < 0 then "-" + Digits(-i) else Digits(i)
  }

  /** A prompt as the listing endpoints return it: the entry plus
      `sampleImage`. */
  datatype PromptWithSample = PromptWithSample(prompt: PromptData, sampleImage: string)

  /** `SAMPLE_IMAGES_CACHE.get(id, "")`. */
  function SampleOf(cache: map<int, string>, id: int): string {
    if id in cache then cache[id] else ""
  }

  function Attach(cache: map<int, string>, ps: seq<Prompt>): (r: seq<PromptWithSample>)
    ensures |r| == |ps|
    ensures forall i :: 0 <= i < |ps| ==> r[i] == PromptWithSample(DataOf(ps[i]), SampleOf(cache, ps[i].id))
  {
    seq(|ps|, i requires 0 <= i < |ps| => PromptWithSample(DataOf(ps[i]), SampleOf(cache, ps[i].id)))
  }

  /** `get_prompt_by_id` once the cache is in place. */
  function PromptById(cache: map<int, string>, promptId: int): (r: Response<PromptWithSample>)
    ensures r.Ok? <==> 0 <= promptId < |Predefined|
    ensures r.Ok? ==> r.value.prompt.id == Some(promptId)
    ensures r.Ok? ==> r.value.prompt == DataOf(Predefined[promptId])
    ensures r.Ok? ==> r.value.sampleImage == SampleOf(cache, promptId)
    ensures r.Err? ==> r.message == "Prompt ID " + IntToString(promptId) + " not found"
  {
    IdsArePositions();
    if 0 <= promptId < |Predefined| then
      Ok(PromptWithSample(DataOf(Predefined[promptId]), SampleOf(cache, promptId)))
    else
      Err("Prompt ID " + IntToString(promptId) + " not found")
  }

  /** The error names the id it was given: its number reads back from the
      message. */
  lemma UnknownIdIsNamed(promptId: nat)
    requires promptId >= |Predefined|
    ensures var m := PromptById(map[], promptId).message;
      |m| > 20 && m[..10] == "Prompt ID " && m[|m| - 10..] == " not found"
      && forall i :: 10 <= i < |m| - 10 ==> IsDigit(m[i])
    ensures var m := PromptById(map[], promptId).message;
      ParseDigits(m[10..|m| - 10]) == promptId
  {
    var m := PromptById(map[], promptId).message;
    assert m == "Prompt ID " + Digits(promptId) + " not found";
    assert m[10..|m| - 10] == Digits(promptId);
    DigitsRoundTrip(promptId);
  }

  /** A negative id is named with its sign: a minus sign, then digits that
      read back as the id's magnitude. */
  lemma NegativeIdIsNamed(promptId: int)
    requires promptId < 0
    ensures var m := PromptById(map[], promptId).message;
      |m| > 21 && m[..10] == "Prompt ID " && m[10] == '-' && m[|m| - 10..] == " not found"
      && forall i :: 11 <= i < |m| - 10 ==> IsDigit(m[i])
    ensures var m := PromptById(map[], promptId).message;
      -(ParseDigits(m[11..|m| - 10]) as int) == promptId
  {
    var m := PromptById(map[], promptId).message;
    assert m == "Prompt ID " + "-" + Digits(-promptId) + " not found";
    assert m[11..|m| - 10] == Digits(-promptId);
    DigitsRoundTrip(-promptId);
  }

  /** The category test of `get_prompts_by_category`. */
  predicate InCategory(p: Prompt, category: string)
    ensures p.category == category ==> InCategory(p, category)
    ensures InCategory(p, category) ==> |p.category| == |category|
  {
    Lower(p.category) == Lower(category)
  }

  /** The entries of `ps` in `category`, in list order. */
  function MatchingPrompts(ps: seq<Prompt>, category: string): (r: seq<Prompt>)
    ensures |r| <= |ps|
  {
    if ps == [] then []
    else MatchingPrompts(ps[..|ps| - 1], category) + (if InCategory(ps[|ps| - 1], category) then [ps[|ps| - 1]] else [])
  }

  /** Exactly the matching entries are kept: every kept entry matches and
      comes from the list, every matching entry is kept. */
  lemma {:induction false} MatchingPromptsSpec(ps: seq<Prompt>, category: string)
    ensures |MatchingPrompts(ps, category)| <= |ps|
    ensures forall p :: p in MatchingPrompts(ps, category) ==> p in ps && InCategory(p, category)
    ensures forall p :: p in ps && InCategory(p, category) ==> p in MatchingPrompts(ps, category)
  {
    if ps != [] {
      var init := ps[..|ps| - 1];
      MatchingPromptsSpec(init, category);
      assert ps == init + [ps[|ps| - 1]];
    }
  }

  /** The query's case does not matter. */
  lemma {:induction false} CategoryQueryIgnoresCase(ps: seq<Prompt>, category: string)
    ensures MatchingPrompts(ps, category) == MatchingPrompts(ps, Lower(category))
  {
    LowerIdempotent(category);
    if ps != [] {
      CategoryQueryIgnoresCase(ps[..|ps| - 1], category);
    }
  }

  /** The ids of `ps` are its positions, as in the predefined list. */
  predicate PositionalIds(ps: seq<Prompt>) {
    forall i :: 0 <= i < |ps| ==> ps[i].id == i
  }

  /** The cache after a fill, and whether the fill was cut short by a
      raised exception. */
  datatype FillState = FillState(cache: map<int, string>, aborted: bool)

  /** The sample-image cache fill over the first `n` entries of `ps`. Each
      id not yet cached gets `generate(text, id)`; cached ids are skipped.
      `generate` gives None when it raises (reading an existing sample
      file fails): the exception leaves the loop, so that id and every
      later one stay as they are. */
  function Filled(ps: seq<Prompt>, cache: map<int, string>, generate: (string, int) -> Option<string>, n: nat): (r: FillState)
    requires n <= |ps|
    ensures cache.Keys <= r.cache.Keys
  {
    if n == 0 then FillState(cache, false)
    else
      var prev := Filled(ps, cache, generate, n - 1);
      var p := ps[n - 1];
      if prev.aborted || p.id in prev.cache then prev
      else match generate(p.text, p.id)
        case Some(image) => FillState(prev.cache[p.id := image], false)
        case None => FillState(prev.cache, true)
  }

  /** The fill only adds: every cached entry keeps its value. */
  lemma {:induction false} FilledKeepsCached(ps: seq<Prompt>, cache: map<int, string>, generate: (string, int) -> Option<string>, n: nat)
    requires n <= |ps|
    ensures forall k :: k in cache ==> k in Filled(ps, cache, generate, n).cache && Filled(ps, cache, generate, n).cache[k] == cache[k]
  {
    if n > 0 {
      FilledKeepsCached(ps, cache, generate, n - 1);
    }
  }

  /** Once the fill is cut short, the later entries change nothing. */
  lemma {:induction false} AbortIsFinal(ps: seq<Prompt>, cache: map<int, string>, generate: (string, int) -> Option<string>, n: nat, m: nat)
    requires n <= m <= |ps|
    requires Filled(ps, cache, generate, n).aborted
    ensures Filled(ps, cache, generate, m) == Filled(ps, cache, generate, n)
    decreases m
  {
    if m > n {
      AbortIsFinal(ps, cache, generate, n, m - 1);
    }
  }

  /** `generate` raises for none of the first `n` entries. */
  predicate NeverRaises(ps: seq<Prompt>, generate: (string, int) -> Option<string>, n: nat)
    requires n <= |ps|
  {
    forall j :: 0 <= j < n ==> generate(ps[j].text, ps[j].id).Some?
  }

  /** When `generate` never raises, the fill is not cut short. */
  lemma {:induction false} NoRaiseNoAbort(ps: seq<Prompt>, cache: map<int, string>, generate: (string, int) -> Option<string>, n: nat)
    requires n <= |ps|
    requires NeverRaises(ps, generate, n)
    ensures !Filled(ps, cache, generate, n).aborted
  {
    if n > 0 {
      NoRaiseNoAbort(ps, cache, generate, n - 1);
    }
  }

  /** The fill adds no id outside the first `n` entries. */
  lemma {:induction false} FilledStaysInList(ps: seq<Prompt>, cache: map<int, string>, generate: (string, int) -> Option<string>, n: nat)
    requires n <= |ps| && PositionalIds(ps)
    ensures forall k :: k in Filled(ps, cache, generate, n).cache ==> k in cache || 0 <= k < n
  {
    if n > 0 {
      FilledStaysInList(ps, cache, generate, n - 1);
    }
  }

  /** A fill that was not cut short holds every id of the first `n`
      entries, and an id that was missing holds what the generator gave for
      its prompt. */
  lemma {:induction false} FilledAddsMissing(ps: seq<Prompt>, cache: map<int, string>, generate: (string, int) -> Option<string>, n: nat)
    requires n <= |ps| && PositionalIds(ps)
    requires !Filled(ps, cache, generate, n).aborted
    ensures forall j :: 0 <= j < n ==> j in Filled(ps, cache, generate, n).cache
    ensures forall j :: 0 <= j < n && j !in cache ==>
      generate(ps[j].text, j) == Some(Filled(ps, cache, generate, n).cache[j])
  {
    if n > 0 {
      var prev := Filled(ps, cache, generate, n - 1);
      var next := Filled(ps, cache, generate, n);
      assert !prev.aborted;
      FilledAddsMissing(ps, cache, generate, n - 1);
      FilledKeepsCached(ps, cache, generate, n - 1);
      FilledStaysInList(ps, cache, generate, n - 1);
      assert ps[n - 1].id == n - 1;
      forall j | 0 <= j < n && j !in cache
        ensures generate(ps[j].text, j) == Some(next.cache[j])
      {
        if j < n - 1 {
          assert next.cache[j] == prev.cache[j];
        }
      }
    }
  }

  /** The cache is either empty or holds exactly the ids `0 .. count - 1`. */
  ghost predicate CacheShape(cache: map<int, string>, count: nat) {
    cache == map[] || forall k :: k in cache <==> 0 <= k < count
  }

  /** Filling an empty cache yields a full one unless `generate` raises;
      it never yields an id outside the list. */
  lemma FillEmptyIsFull(ps: seq<Prompt>, generate: (string, int) -> Option<string>)
    requires PositionalIds(ps)
    ensures forall k :: k in Filled(ps, map[], generate, |ps|).cache ==> 0 <= k < |ps|
    ensures NeverRaises(ps, generate, |ps|) ==>
      CacheShape(Filled(ps, map[], generate, |ps|).cache, |ps|)
      && forall k :: 0 <= k < |ps| ==> k in Filled(ps, map[], generate, |ps|).cache
  {
    FilledStaysInList(ps, map[], generate, |ps|);
    if NeverRaises(ps, generate, |ps|) {
      NoRaiseNoAbort(ps, map[], generate, |ps|);
      FilledAddsMissing(ps, map[], generate, |ps|);
    }
  }

  /** Filling the empty cache over the predefined list gives ids of the
      list only, and all fifteen unless `generate` raises. */
  lemma FillEmptyPredefined(generate: (string, int) -> Option<string>)
    ensures forall k :: k in Filled(Predefined, map[], generate, |Predefined|).cache ==> 0 <= k < |Predefined|
    ensures NeverRaises(Predefined, generate, |Predefined|) ==>
      CacheShape(Filled(Predefined, map[], generate, |Predefined|).cache, |Predefined|)
      && Filled(Predefined, map[], generate, |Predefined|).cache != map[]
  {
    IdsArePositions();
    FillEmptyIsFull(Predefined, generate);
    if NeverRaises(Predefined, generate, |Predefined|) {
      assert 0 in Filled(Predefined, map[], generate, |Predefined|).cache;
    }
  }

  /** The loop of `pre_generate_sample_images` over the list `ps`: it
      stops at the first raised exception. */
  method FillLoop(ps: seq<Prompt>, start: map<int, string>, generate: (string, int) -> Option<string>)
    returns (cache: map<int, string>)
    ensures cache == Filled(ps, start, generate, |ps|).cache
  {
    cache := start;
    var i := 0;
    while i < |ps|
      invariant i <= |ps|
      invariant !Filled(ps, start, generate, i).aborted
      invariant cache == Filled(ps, start, generate, i).cache
    {
      var p := ps[i];
      if p.id !in cache {
        var sample := generate(p.text, p.id);
        if sample.None? {
          AbortIsFinal(ps, start, generate, i + 1, |ps|);
          return;
        }
        cache := cache[p.id := sample.value];
      }
      i := i + 1;
    }
  }

  /** `prompts_with_samples` of `get_predefined_prompts`: a copy of each
      entry with its cached sample, in order. */
  method AttachSamples(cache: map<int, string>, ps: seq<Prompt>) returns (r: seq<PromptWithSample>)
    ensures r == Attach(cache, ps)
  {
    r := [];
    for i := 0 to |ps|
      invariant r == Attach(cache, ps[..i])
    {
      r := r + [PromptWithSample(DataOf(ps[i]), SampleOf(cache, ps[i].id))];
    }
    assert ps[..|ps|] == ps;
  }

  /** `filtered_prompts` of `get_prompts_by_category`. */
  method FilterByCategory(cache: map<int, string>, ps: seq<Prompt>, category: string) returns (r: seq<PromptWithSample>)
    ensures r == Attach(cache, MatchingPrompts(ps, category))
  {
    r := [];
    for i := 0 to |ps|
      invariant r == Attach(cache, MatchingPrompts(ps[..i], category))
    {
      assert ps[..i + 1][..i] == ps[..i];
      if InCategory(ps[i], category) {
        r := r + [PromptWithSample(DataOf(ps[i]), SampleOf(cache, ps[i].id))];
      }
    }
    assert ps[..|ps|] == ps;
  }

  /** The process-wide `SAMPLE_IMAGES_CACHE`. `generate` stands for
      `generate_sample_image`: the file if it exists (None when reading it
      raises), a fresh image otherwise, "" when generation fails. */
  class PromptService {
    var cache: map<int, string>

    constructor ()
      ensures cache == map[]
    {
      cache := map[];
    }

    /** `pre_generate_sample_images`: the function's own handler swallows
        the exception that ends the loop. */
    method PreGenerate(generate: (string, int) -> Option<string>)
      modifies this
      ensures cache == Filled(Predefined, old(cache), generate, |Predefined|).cache
    {
      cache := FillLoop(Predefined, cache, generate);
    }

    /** `if not SAMPLE_IMAGES_CACHE: pre_generate_sample_images()`. A
        cache that a cut-short fill left partly filled is not empty, so it
        is never filled again. */
    method EnsureSamples(generate: (string, int) -> Option<string>)
      modifies this
      ensures cache == if old(cache) == map[] then Filled(Predefined, old(cache), generate, |Predefined|).cache else old(cache)
      ensures old(cache) == map[] ==> forall k :: k in cache ==> 0 <= k < |Predefined|
      ensures CacheShape(old(cache), |Predefined|) && NeverRaises(Predefined, generate, |Predefined|) ==>
        CacheShape(cache, |Predefined|) && cache != map[]
    {
      if cache == map[] {
        FillEmptyPredefined(generate);
        PreGenerate(generate);
      }
    }

    /** The startup hook. */
    method Startup(generate: (string, int) -> Option<string>)
      modifies this
      ensures cache == Filled(Predefined, old(cache), generate, |Predefined|).cache
      ensures old(cache) == map[] && NeverRaises(Predefined, generate, |Predefined|) ==>
        CacheShape(cache, |Predefined|) && cache != map[]
    {
      PreGenerate(generate);
      if old(cache) == map[] {
        FillEmptyPredefined(generate);
      }
    }

    /** Start-up, then a request that ensures samples, each with its own
        sample generator. A start-up fill cut short after caching some
        samples is kept as it is; only one that cached nothing is run
        again by the request. */
    method RequestAfterStartup(atStartup: (string, int) -> Option<string>, atRequest: (string, int) -> Option<string>)
      requires cache == map[]
      modifies this
      ensures var first := Filled(Predefined, map[], atStartup, |Predefined|).cache;
        cache == if first == map[] then Filled(Predefined, map[], atRequest, |Predefined|).cache else first
    {
      Startup(atStartup);
      EnsureSamples(atRequest);
    }

    /** `GET /predefined-prompts`. */
    method GetPredefinedPrompts(generate: (string, int) -> Option<string>) returns (prompts: seq<PromptWithSample>, count: nat)
      modifies this
      ensures cache == if old(cache) == map[] then Filled(Predefined, old(cache), generate, |Predefined|).cache else old(cache)
      ensures prompts == Attach(cache, Predefined)
      ensures count == |Predefined| == |prompts|
    {
      EnsureSamples(generate);
      prompts := AttachSamples(cache, Predefined);
      count := |Predefined|;
    }

    /** `GET /prompt/{prompt_id}`: the cache is filled only for an id in
        range. */
    method GetPromptById(promptId: int, generate: (string, int) -> Option<string>) returns (r: Response<PromptWithSample>)
      modifies this
      ensures cache == if 0 <= promptId < |Predefined| && old(cache) == map[]
        then Filled(Predefined, old(cache), generate, |Predefined|).cache else old(cache)
      ensures r == PromptById(cache, promptId)
    {
      if 0 <= promptId < |Predefined| {
        EnsureSamples(generate);
      }
      r := PromptById(cache, promptId);
    }

    /** `GET /prompts-by-category/{category}`. */
    method GetPromptsByCategory(category: string, generate: (string, int) -> Option<string>)
      returns (prompts: seq<PromptWithSample>, count: nat)
      modifies this
      ensures cache == if old(cache) == map[] then Filled(Predefined, old(cache), generate, |Predefined|).cache else old(cache)
      ensures prompts == Attach(cache, MatchingPrompts(Predefined, category))
      ensures count == |prompts|
    {
      EnsureSamples(generate);
      prompts := FilterByCategory(cache, Predefined, category);
      count := |prompts|;
    }

    /** `GET /sample-images`. */
    method GetAllSampleImages(generate: (string, int) -> Option<string>) returns (images: map<int, string>, count: nat)
      modifies this
      ensures cache == if old(cache) == map[] then Filled(Predefined, old(cache), generate, |Predefined|).cache else old(cache)
      ensures images == cache && count == |cache.Keys|
    {
      EnsureSamples(generate);
      images := cache;
      count := |cache.Keys|;
    }
  }
}
