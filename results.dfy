/**
 * The recommendations page: a table from mood to four products, a title and a
 * description per mood, and the effect that reads the `mood` query parameter
 * into the page state.
 */
module Results {
  import opened Wrappers
  import Products

  /** The products of the mood table carry no mood or category. */
  datatype Recommendation = Recommendation(id: nat, name: string, price: nat, image: string, description: string)

  /** `Object.keys(moodProducts)`. */
  const MoodKeys: seq<string> := ["happy", "calm", "sad", "energetic"]

  const HappyProducts: seq<Recommendation> := [
    Recommendation(1, "Celebration Box", 3999, Products.Placeholder, "A curated box of treats to celebrate good moments."),
    Recommendation(2, "Gratitude Journal", 1499, Products.Placeholder, "Record your daily moments of joy and gratitude."),
    Recommendation(3, "Party Lights", 2499, Products.Placeholder, "Colorful LED lights to enhance your happy atmosphere."),
    Recommendation(4, "Upbeat Playlist Subscription", 999, Products.Placeholder, "Access to curated playlists that boost your mood.")
  ]

  const CalmProducts: seq<Recommendation> := [
    Recommendation(5, "Calming Tea Set", 2499, Products.Placeholder, "A selection of herbal teas to help you relax and unwind."),
    Recommendation(6, "Aromatherapy Diffuser", 3499, Products.Placeholder, "Essential oil diffuser with calming scents."),
    Recommendation(7, "Meditation Cushion", 2999, Products.Placeholder, "Comfortable cushion for your meditation practice."),
    Recommendation(8, "Sound Machine", 1999, Products.Placeholder, "Create a peaceful environment with nature sounds.")
  ]

  const SadProducts: seq<Recommendation> := [
    Recommendation(9, "Comfort Blanket", 3499, Products.Placeholder,
      "A soft, weighted blanket for those days when you need extra comfort."),
    Recommendation(10, "Self-Care Box", 4499, Products.Placeholder, "A collection of items to help you practice self-care."),
    Recommendation(11, "Mood-Boosting Lamp", 4999, Products.Placeholder, "Light therapy lamp to help improve your mood."),
    Recommendation(12, "Comforting Playlist Subscription", 999, Products.Placeholder,
      "Access to music that provides comfort and support.")
  ]

  const EnergeticProducts: seq<Recommendation> := [
    Recommendation(13, "Energizing Fitness Kit", 4999, Products.Placeholder,
      "Everything you need for a quick workout to boost your energy."),
    Recommendation(14, "Protein Snack Box", 2999, Products.Placeholder, "Healthy snacks to fuel your active lifestyle."),
    Recommendation(15, "Wireless Earbuds", 5999, Products.Placeholder,
      "High-quality earbuds for your energetic music or podcasts."),
    Recommendation(16, "Productivity Planner", 1999, Products.Placeholder, "Plan your day efficiently and channel your energy.")
  ]

  /** `moodProducts[mood]`: undefined for anything but the four keys. */
  function MoodProducts(mood: string): (r: Option<seq<Recommendation>>)
    ensures r.Some? <==> mood in MoodKeys
  {
    match mood
    case "happy" => Some(HappyProducts)
    case "calm" => Some(CalmProducts)
    case "sad" => Some(SadProducts)
    case "energetic" => Some(EnergeticProducts)
    case _ => None
  }

  function MoodTitle(mood: string): Option<string>
  {
    match mood
    case "happy" => Some("Happy & Joyful")
    case "calm" => Some("Calm & Peaceful")
    case "sad" => Some("Looking for Comfort")
    case "energetic" => Some("Energetic & Active")
    case _ => None
  }

  function MoodDescription(mood: string): Option<string>
  {
    match mood
    case "happy" => Some("You're in a positive and joyful mood! Here are some products to celebrate and enhance your happiness.")
    case "calm" => Some("You're feeling peaceful and relaxed. These products can help maintain your tranquil state of mind.")
    case "sad" => Some("You might be feeling down right now. These products are designed to provide comfort and support.")
    case "energetic" => Some("You're full of energy and ready for action! These products can help channel your enthusiasm.")
    case _ => None
  }

  /** The title and description tables cover exactly the moods of the product table. */
  lemma LookupsAgree(mood: string)
    ensures MoodTitle(mood).Some? <==> MoodProducts(mood).Some?
    ensures MoodDescription(mood).Some? <==> MoodProducts(mood).Some?
  {
  }

  /** `moodParam && Object.keys(moodProducts).includes(moodParam)`. */
  predicate IsKnownMood(param: Option<string>)
  {
    param.Some? && param.value != "" && param.value in MoodKeys
  }

  datatype PageState = PageState(mood: string, products: seq<Recommendation>)

  /** `useState("happy")` and `useState([])`. */
  const InitialState: PageState := PageState("happy", [])

  /** The mood shown has a product list, and the list shown is that mood's. */
  predicate Consistent(s: PageState)
  {
    MoodProducts(s.mood) == Some(s.products)
  }

  /**
   * The effect as written: a known mood is taken with its products; otherwise
   * the happy products are shown and the mood is left as it was.
   */
  function ApplyMoodParamAsWritten(s: PageState, param: Option<string>): (r: PageState)
    ensures IsKnownMood(param) ==> r.mood == param.value && Some(r.products) == MoodProducts(param.value)
    ensures !IsKnownMood(param) ==> r.mood == s.mood && r.products == HappyProducts
  {
    if IsKnownMood(param) then PageState(param.value, MoodProducts(param.value).value)
    else s.(products := HappyProducts)
  }

  /** The effect as evidently intended: the fallback sets the mood to happy as well. */
  function ApplyMoodParam(s: PageState, param: Option<string>): (r: PageState)
    ensures IsKnownMood(param) ==> r.mood == param.value && Some(r.products) == MoodProducts(param.value)
    ensures !IsKnownMood(param) ==> r.mood == "happy" && r.products == HappyProducts
  {
    if IsKnownMood(param) then PageState(param.value, MoodProducts(param.value).value)
    else PageState("happy", HappyProducts)
  }

  /** The two agree on a known mood, whatever the earlier state. */
  lemma AgreeOnKnownMood(s: PageState, param: Option<string>)
    requires IsKnownMood(param)
    ensures ApplyMoodParamAsWritten(s, param) == ApplyMoodParam(s, param)
  {
  }

  /** On the first run the mood is still the initial "happy", so the two agree and the page is consistent. */
  lemma FirstRunConsistent(param: Option<string>)
    ensures ApplyMoodParamAsWritten(InitialState, param) == ApplyMoodParam(InitialState, param)
    ensures Consistent(ApplyMoodParamAsWritten(InitialState, param))
  {
  }

  /**
   * As written, a valid mood followed by an unknown one leaves the calm title
   * and description above the happy products.
   */
  lemma StaleMoodAfterUnknownParam()
    ensures var s := ApplyMoodParamAsWritten(ApplyMoodParamAsWritten(InitialState, Some("calm")), Some("bogus"));
      s.mood == "calm" && s.products == HappyProducts && !Consistent(s)
  {
    assert HappyProducts[0] != CalmProducts[0];
  }

  /** Corrected, every run of the effect leaves the page consistent, whatever came before. */
  lemma ApplyMoodParamConsistent(s: PageState, param: Option<string>)
    ensures Consistent(ApplyMoodParam(s, param))
  {
  }

  /** A consistent page always has a title and a description to show. */
  lemma ConsistentHasTitle(s: PageState)
    requires Consistent(s)
    ensures MoodTitle(s.mood).Some? && MoodDescription(s.mood).Some?
  {
  }

  /**
   * As written the page need not be consistent, but its mood is always one of
   * the four keys, so it still always has a title and a description.
   */
  lemma AsWrittenKeepsTitle(s: PageState, param: Option<string>)
    requires s.mood in MoodKeys
    ensures ApplyMoodParamAsWritten(s, param).mood in MoodKeys
    ensures MoodTitle(ApplyMoodParamAsWritten(s, param).mood).Some?
    ensures MoodDescription(ApplyMoodParamAsWritten(s, param).mood).Some?
  {
  }

  function Recommend(p: Products.Product): Recommendation
  {
    Recommendation(p.id, p.name, p.price, p.image, p.description)
  }

  /** The recommendations made from a list of shop products. */
  function RecommendAll(shop: seq<Products.Product>): (r: seq<Recommendation>)
    ensures |r| == |shop|
    ensures forall i :: 0 <= i < |shop| ==> r[i] == Recommend(shop[i])
  {
    seq(|shop|, i requires 0 <= i < |shop| => Recommend(shop[i]))
  }

  /** What the shop's filter on `mood` makes of a shelf of catalog products all of mood `m`. */
  lemma FilterShelf(shelf: seq<Products.Product>, mood: string, m: string)
    requires mood != "all"
    requires forall p :: p in shelf ==> p.mood == m
    ensures Products.Filter(shelf, mood, "", "all") == if mood == m then shelf else []
  {
    if mood == m {
      forall p | p in shelf ensures Products.Keep(p, mood, "", "all") {
        Products.EmptyQueryMatches(p);
      }
      Products.FilterAllKept(shelf, mood, "", "all");
    } else {
      Products.FilterNoneKept(shelf, mood, "", "all");
    }
  }

  /** The happy shelf of the catalog is the table's "happy" list, with mood and category added. */
  lemma HappyShelfMatches()
    ensures RecommendAll(Products.HappyShelf) == HappyProducts
  {
  }

  lemma HappyShelfMood()
    ensures forall p :: p in Products.HappyShelf ==> p.mood == "happy"
  {
  }

  /** The calm shelf of the catalog is the table's "calm" list, with mood and category added. */
  lemma CalmShelfMatches()
    ensures RecommendAll(Products.CalmShelf) == CalmProducts
  {
  }

  lemma CalmShelfMood()
    ensures forall p :: p in Products.CalmShelf ==> p.mood == "calm"
  {
  }

  /** The sad shelf of the catalog is the table's "sad" list, with mood and category added. */
  lemma SadShelfMatches()
    ensures RecommendAll(Products.SadShelf) == SadProducts
  {
  }

  lemma SadShelfMood()
    ensures forall p :: p in Products.SadShelf ==> p.mood == "sad"
  {
  }

  /** The energetic shelf of the catalog is the table's "energetic" list, with mood and category added. */
  lemma EnergeticShelfMatches()
    ensures RecommendAll(Products.EnergeticShelf) == EnergeticProducts
  {
  }

  lemma EnergeticShelfMood()
    ensures forall p :: p in Products.EnergeticShelf ==> p.mood == "energetic"
  {
  }

  /** Filtering the catalog filters each shelf. */
  lemma CatalogFilterSplit(mood: string)
    ensures var a, b, c, d := Products.HappyShelf, Products.CalmShelf, Products.SadShelf, Products.EnergeticShelf;
      Products.Filter(Products.AllProducts, mood, "", "all")
      == Products.Filter(a, mood, "", "all") + Products.Filter(b, mood, "", "all")
       + Products.Filter(c, mood, "", "all") + Products.Filter(d, mood, "", "all")
  {
    var a, b, c, d := Products.HappyShelf, Products.CalmShelf, Products.SadShelf, Products.EnergeticShelf;
    Products.FilterAppend(a + b + c, d, mood, "", "all");
    Products.FilterAppend(a + b, c, mood, "", "all");
    Products.FilterAppend(a, b, mood, "", "all");
  }

  lemma FilterHappyShelf(mood: string)
    requires mood in MoodKeys
    ensures Products.Filter(Products.HappyShelf, mood, "", "all") == if mood == "happy" then Products.HappyShelf else []
  {
    HappyShelfMood();
    FilterShelf(Products.HappyShelf, mood, "happy");
  }

  lemma FilterCalmShelf(mood: string)
    requires mood in MoodKeys
    ensures Products.Filter(Products.CalmShelf, mood, "", "all") == if mood == "calm" then Products.CalmShelf else []
  {
    CalmShelfMood();
    FilterShelf(Products.CalmShelf, mood, "calm");
  }

  lemma FilterSadShelf(mood: string)
    requires mood in MoodKeys
    ensures Products.Filter(Products.SadShelf, mood, "", "all") == if mood == "sad" then Products.SadShelf else []
  {
    SadShelfMood();
    FilterShelf(Products.SadShelf, mood, "sad");
  }

  lemma FilterEnergeticShelf(mood: string)
    requires mood in MoodKeys
    ensures Products.Filter(Products.EnergeticShelf, mood, "", "all") == if mood == "energetic" then Products.EnergeticShelf else []
  {
    EnergeticShelfMood();
    FilterShelf(Products.EnergeticShelf, mood, "energetic");
  }

  /** The shop's filter on a mood keeps exactly that mood's shelf. */
  lemma CatalogFilterByMood(mood: string)
    requires mood in MoodKeys
    ensures var a, b, c, d := Products.HappyShelf, Products.CalmShelf, Products.SadShelf, Products.EnergeticShelf;
      Products.Filter(Products.AllProducts, mood, "", "all")
      == (if mood == "happy" then a else []) + (if mood == "calm" then b else [])
       + (if mood == "sad" then c else []) + (if mood == "energetic" then d else [])
  {
    CatalogFilterSplit(mood);
    FilterHappyShelf(mood);
    FilterCalmShelf(mood);
    FilterSadShelf(mood);
    FilterEnergeticShelf(mood);
  }

  /** Each mood's recommendations are exactly the shop's products of that mood, in catalog order. */
  lemma RecommendationsMatchCatalog(mood: string)
    requires mood in MoodKeys
    ensures MoodProducts(mood) == Some(RecommendAll(Products.Filter(Products.AllProducts, mood, "", "all")))
  {
    CatalogFilterByMood(mood);
    var shop := Products.Filter(Products.AllProducts, mood, "", "all");
    if mood == "happy" {
      assert shop == Products.HappyShelf;
      HappyShelfMatches();
    } else if mood == "calm" {
      assert shop == Products.CalmShelf;
      CalmShelfMatches();
    } else if mood == "sad" {
      assert shop == Products.SadShelf;
      SadShelfMatches();
    } else {
      assert shop == Products.EnergeticShelf;
      EnergeticShelfMatches();
    }
  }

  class ResultsPage {
    var mood: string
    var products: seq<Recommendation>

    constructor ()
      ensures mood == InitialState.mood && products == InitialState.products
    {
      mood, products := "happy", [];
    }

    /** The effect run when the search parameters change, with the fallback corrected. */
    method OnSearchParams(param: Option<string>)
      modifies this
      ensures PageState(mood, products) == ApplyMoodParam(old(PageState(mood, products)), param)
      ensures Consistent(PageState(mood, products))
    {
      if param.Some? && param.value != "" && param.value in MoodKeys {
        mood := param.value;
        products := MoodProducts(param.value).value;
      } else {
        mood := "happy";
        products := HappyProducts;
      }
    }
  }
}
