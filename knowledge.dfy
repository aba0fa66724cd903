/** The assistant's plant knowledge base: a fixed table of three plants,
    searched for the first key that occurs in the lower-cased query, and the
    reply block that presents a plant. */
module Knowledge {
  import opened Text

  datatype Option<T> = None | Some(value: T)

  /** One record of the knowledge base. `exportMarkets` is the component's
      `export` field (a reserved word here). */
  datatype Plant = Plant(
    name: string,
    benefits: seq<string>,
    growing: string,
    harvesting: string,
    exportMarkets: seq<string>,
    price: string)

  /** A key of the table together with its record. */
  datatype Entry = Entry(key: string, plant: Plant)

  const Tulsi: Plant := Plant(
    "Holy Basil (Tulsi)",
    ["Immunity booster", "Stress relief", "Respiratory health", "Blood sugar control"],
    "Well-drained soil, 6-8 hours sunlight, regular watering",
    "90-100 days after planting",
    ["USA", "Europe", "Middle East", "Japan"],
    "₹150-200 per plant")

  const AloeVera: Plant := Plant(
    "Aloe Vera",
    ["Skin care", "Digestion aid", "Anti-inflammatory", "Wound healing"],
    "Sandy soil, minimal watering, bright indirect light",
    "8-10 months after planting",
    ["Cosmetics industry", "Pharmaceuticals", "USA", "Germany"],
    "₹200-250 per plant")

  const Turmeric: Plant := Plant(
    "Turmeric Plant",
    ["Anti-inflammatory", "Antioxidant", "Arthritis relief", "Brain health"],
    "Warm climate, well-drained soil, 8-10 months growth",
    "When leaves turn yellow",
    ["USA", "UK", "Canada", "Australia"],
    "₹180-220 per kg")

  /** The table in declaration order, which is the order of the search. */
  const Database: seq<Entry> := [
    Entry("tulsi", Tulsi),
    Entry("aloe vera", AloeVera),
    Entry("turmeric", Turmeric)
  ]

  /** Scans `table` from position `from` and gives the position of the first
      entry whose key occurs in `q`. */
  function FirstMatch(table: seq<Entry>, q: string, from: nat): (r: Option<nat>)
    requires from <= |table|
    ensures r.Some? ==> from <= r.value < |table| && Contains(q, table[r.value].key)
    ensures r.Some? ==> forall j :: from <= j < r.value ==> !Contains(q, table[j].key)
    ensures r.None? <==> forall j :: from <= j < |table| ==> !Contains(q, table[j].key)
    decreases |table| - from
  {
    if from == |table| then None
    else if Contains(q, table[from].key) then Some(from)
    else FirstMatch(table, q, from + 1)
  }

  /** The plant-specific lookup: the first plant of the database whose key
      occurs in the lower-cased query, if any. */
  function Lookup(q: string): (r: Option<Plant>)
  {
    match FirstMatch(Database, q, 0)
    case None => None
    case Some(i) => Some(Database[i].plant)
  }

  /** Lookup picks tulsi, then aloe vera, then turmeric, whichever occurs first
      in that order, and finds nothing exactly when no key occurs. */
  lemma LookupOrder(q: string)
    ensures Contains(q, "tulsi") ==> Lookup(q) == Some(Tulsi)
    ensures !Contains(q, "tulsi") && Contains(q, "aloe vera") ==> Lookup(q) == Some(AloeVera)
    ensures !Contains(q, "tulsi") && !Contains(q, "aloe vera") && Contains(q, "turmeric") ==>
              Lookup(q) == Some(Turmeric)
    ensures Lookup(q).None? <==>
              !Contains(q, "tulsi") && !Contains(q, "aloe vera") && !Contains(q, "turmeric")
  {
    var r := FirstMatch(Database, q, 0);
    assert Database[0].key == "tulsi" && Database[1].key == "aloe vera" && Database[2].key == "turmeric";
    if r.Some? {
      assert r.value == 0 || r.value == 1 || r.value == 2;
    }
  }

  /** The bullet list of benefits, `benefits.map(b => '• ' + b)`. */
  function Bullets(items: seq<string>): (r: seq<string>)
    ensures |r| == |items|
    ensures forall i :: 0 <= i < |items| ==> r[i] == "• " + items[i]
  {
    if items == [] then [] else ["• " + items[0]] + Bullets(items[1..])
  }

  /** The text between the plant's name and its first benefit bullet. */
  const BenefitsHeading: string := "**\n\n💊 **Medicinal Benefits:**\n"

  /** The reply text that presents one plant. */
  function PlantBlock(p: Plant): (r: string)
  {
    "🌿 **" + p.name + BenefitsHeading
    + Join(Bullets(p.benefits), "\n")
    + "\n\n🌱 **Growing Guide:**\n" + p.growing
    + "\n\n💰 **Market Price:** " + p.price
    + "\n\n🌍 **Export Markets:** " + Join(p.exportMarkets, ", ")
    + "\n\n🕒 **Harvesting Time:** " + p.harvesting
  }

  /** Each variable piece of a text laid out like the plant block occurs in it. */
  lemma {:induction false} LayoutPieces(h0: string, name: string, h1: string, bullets: string,
                                        h2: string, growing: string, h3: string, price: string,
                                        h4: string, markets: string, h5: string, harvest: string)
    ensures var text := h0 + name + h1 + bullets + h2 + growing + h3 + price + h4 + markets + h5 + harvest;
      Contains(text, name) && Contains(text, h1 + bullets) && Contains(text, growing)
      && Contains(text, price) && Contains(text, markets) && Contains(text, harvest)
  {
    var p1 := h0 + name;
    ContainsSelf(name);
    ContainsPrepend(h0, name, name);
    var p2 := p1 + h1 + bullets;
    ContainsSelf(h1 + bullets);
    ContainsPrepend(p1, h1 + bullets, h1 + bullets);
    assert p1 + (h1 + bullets) == p2;
    var p3 := p2 + h2 + growing;
    ContainsSelf(growing);
    ContainsPrepend(p2 + h2, growing, growing);
    var p4 := p3 + h3 + price;
    ContainsSelf(price);
    ContainsPrepend(p3 + h3, price, price);
    var p5 := p4 + h4 + markets;
    ContainsSelf(markets);
    ContainsPrepend(p4 + h4, markets, markets);
    var text := p5 + h5 + harvest;
    ContainsSelf(harvest);
    ContainsPrepend(p5 + h5, harvest, harvest);
    // Carry each earlier occurrence through the pieces that follow it.
    ContainsAppend(p1, h1, name);
    ContainsAppend(p1 + h1, bullets, name);
    ContainsAppend(p2, h2, name);
    ContainsAppend(p2, h2, h1 + bullets);
    ContainsAppend(p2 + h2, growing, name);
    ContainsAppend(p2 + h2, growing, h1 + bullets);
    forall u | u in {name, h1 + bullets, growing} ensures Contains(p4, u) {
      ContainsAppend(p3, h3, u);
      ContainsAppend(p3 + h3, price, u);
    }
    forall u | u in {name, h1 + bullets, growing, price} ensures Contains(p5, u) {
      ContainsAppend(p4, h4, u);
      ContainsAppend(p4 + h4, markets, u);
    }
    forall u | u in {name, h1 + bullets, growing, price, markets} ensures Contains(text, u) {
      ContainsAppend(p5, h5, u);
      ContainsAppend(p5 + h5, harvest, u);
    }
  }

  /** The benefits heading and the bullet list occur together in the block. */
  lemma PlantBlockLayout(p: Plant)
    ensures Contains(PlantBlock(p), BenefitsHeading + Join(Bullets(p.benefits), "\n"))
  {
    LayoutPieces("🌿 **", p.name, BenefitsHeading, Join(Bullets(p.benefits), "\n"),
                 "\n\n🌱 **Growing Guide:**\n", p.growing, "\n\n💰 **Market Price:** ", p.price,
                 "\n\n🌍 **Export Markets:** ", Join(p.exportMarkets, ", "),
                 "\n\n🕒 **Harvesting Time:** ", p.harvesting);
  }

  /** The plant block names the plant and gives its growing guide, its price,
      its export markets joined by ", " and its harvest time. */
  lemma PlantBlockFacts(p: Plant)
    ensures Contains(PlantBlock(p), p.name)
    ensures Contains(PlantBlock(p), p.growing)
    ensures Contains(PlantBlock(p), p.price)
    ensures Contains(PlantBlock(p), Join(p.exportMarkets, ", "))
    ensures Contains(PlantBlock(p), p.harvesting)
  {
    LayoutPieces("🌿 **", p.name, BenefitsHeading, Join(Bullets(p.benefits), "\n"),
                 "\n\n🌱 **Growing Guide:**\n", p.growing, "\n\n💰 **Market Price:** ", p.price,
                 "\n\n🌍 **Export Markets:** ", Join(p.exportMarkets, ", "),
                 "\n\n🕒 **Harvesting Time:** ", p.harvesting);
  }

  /** Every benefit appears in the block as a bullet. */
  lemma PlantBlockBenefits(p: Plant)
    ensures forall i :: 0 <= i < |p.benefits| ==> Contains(PlantBlock(p), "• " + p.benefits[i])
  {
    var bs := Bullets(p.benefits);
    var bullets := Join(bs, "\n");
    PlantBlockLayout(p);
    forall i | 0 <= i < |p.benefits| ensures Contains(PlantBlock(p), "• " + p.benefits[i]) {
      JoinContainsEach(bs, "\n", i);
      ContainsPrepend(BenefitsHeading, bullets, bs[i]);
      ContainsTrans(PlantBlock(p), BenefitsHeading + bullets, bs[i]);
    }
  }

  /** The first bullet comes right after the line break that ends the
      benefits heading. */
  lemma PlantBlockFirstBullet(p: Plant)
    requires |p.benefits| > 0
    ensures Contains(PlantBlock(p), BenefitsHeading + "• " + p.benefits[0])
  {
    var bs := Bullets(p.benefits);
    var first := BenefitsHeading + bs[0];
    var rest := if |bs| == 1 then "" else "\n" + Join(bs[1..], "\n");
    assert Join(bs, "\n") == bs[0] + rest;
    assert BenefitsHeading + Join(bs, "\n") == first + rest;
    ContainsSelf(first);
    ContainsAppend(first, rest, first);
    PlantBlockLayout(p);
    ContainsTrans(PlantBlock(p), BenefitsHeading + Join(bs, "\n"), first);
    assert first == BenefitsHeading + "• " + p.benefits[0];
  }

  /** Every export market of the plant appears in its block. */
  lemma PlantBlockMarkets(p: Plant)
    ensures forall i :: 0 <= i < |p.exportMarkets| ==> Contains(PlantBlock(p), p.exportMarkets[i])
  {
    PlantBlockFacts(p);
    var markets := Join(p.exportMarkets, ", ");
    forall i | 0 <= i < |p.exportMarkets| ensures Contains(PlantBlock(p), p.exportMarkets[i]) {
      JoinContainsEach(p.exportMarkets, ", ", i);
      ContainsTrans(PlantBlock(p), markets, p.exportMarkets[i]);
    }
  }
}
