/** The component's lookup tables and the translators built on them
    (src/App.tsx:105-252). Every table is a plain object literal indexed as
    `table[s] || fallback`: an exact, case-sensitive, whole-string lookup that
    falls back when the key is absent or maps to a falsy (empty) string. */
module Translations {

  /** JavaScript `table[s] || fallback`. */
  function Lookup(table: map<string, string>, s: string, fallback: string): (r: string)
    ensures s in table && table[s] != "" ==> r == table[s]
    ensures s !in table || table[s] == "" ==> r == fallback
  {
    if s in table && table[s] != "" then table[s] else fallback
  }

  /** No key maps to the empty string, so `||` never falls back on a hit. */
  ghost predicate NoEmptyValue(table: map<string, string>) {
    forall k :: k in table ==> table[k] != ""
  }

  /** Every mapped value that is itself a key maps to itself. */
  ghost predicate ValuesFixed(table: map<string, string>) {
    forall k :: k in table && table[k] in table ==> table[table[k]] == table[k]
  }

  /** The rule shared by the five translators, `table[s] || s`: the mapped
      value on a hit, the input itself on a miss. It never blanks a
      non-empty string. */
  function Translate(table: map<string, string>, s: string): (r: string)
    ensures s != "" ==> r != ""
    ensures s !in table ==> r == s
    ensures s in table && table[s] == "" ==> r == s
    ensures s in table && table[s] != "" ==> r == table[s]
    ensures NoEmptyValue(table) && s in table ==> r == table[s]
  {
    Lookup(table, s, s)
  }

  /** The grey class of every tag the colour table does not know
      (src/App.tsx:116). */
  const DefaultColour := "bg-gray-100 text-gray-800"

  /** The rule of `getDietFitColor`, `colours[tag] || DefaultColour`. */
  function ColourClass(colours: map<string, string>, tag: string): (r: string)
    ensures r != ""
    ensures tag !in colours ==> r == DefaultColour
    ensures tag in colours && colours[tag] == "" ==> r == DefaultColour
    ensures tag in colours && colours[tag] != "" ==> r == colours[tag]
    ensures NoEmptyValue(colours) && tag in colours ==> r == colours[tag]
  {
    Lookup(colours, tag, DefaultColour)
  }

  /** Translating twice is translating once when the table's values are fixed
      points. */
  lemma TranslateIdempotent(table: map<string, string>, s: string)
    requires ValuesFixed(table)
    ensures Translate(table, Translate(table, s)) == Translate(table, s)
  {
  }

  /** A table none of whose values is a key has its values fixed, vacuously. */
  lemma DisjointValuesFixed(table: map<string, string>)
    requires table.Keys !! table.Values
    ensures ValuesFixed(table)
  {
    forall k | k in table
      ensures table[k] !in table
    {
      assert table[k] in table.Values;
    }
  }

  /** Every value of a union is a value of one of its parts. */
  lemma UnionValues(a: map<string, string>, b: map<string, string>)
    ensures (a + b).Values <= a.Values + b.Values
  {
    forall v | v in (a + b).Values
      ensures v in a.Values + b.Values
    {
      var k :| k in a + b && (a + b)[k] == v;
      if k in b {
        assert b[k] in b.Values;
      } else {
        assert a[k] in a.Values;
      }
    }
  }

  /** No value of a union of three parts is one of its keys when no value of
      any part is a key of any part. */
  lemma DisjointUnion3(a: map<string, string>, b: map<string, string>, c: map<string, string>)
    requires a.Values !! a.Keys && a.Values !! b.Keys && a.Values !! c.Keys
    requires b.Values !! a.Keys && b.Values !! b.Keys && b.Values !! c.Keys
    requires c.Values !! a.Keys && c.Values !! b.Keys && c.Values !! c.Keys
    ensures (a + b + c).Keys !! (a + b + c).Values
  {
    UnionValues(a, b);
    UnionValues(a + b, c);
  }

  /** Adding entries that map names to themselves keeps the values fixed,
      provided no other value is one of those names. */
  lemma KeptUnionValuesFixed(rest: map<string, string>, kept: map<string, string>)
    requires rest.Keys !! rest.Values
    requires forall k :: k in kept ==> kept[k] == k
    requires rest.Values !! kept.Keys
    ensures ValuesFixed(rest + kept)
  {
    forall k | k in rest && k !in kept
      ensures rest[k] !in rest + kept
    {
      assert rest[k] in rest.Values;
    }
  }

  /** A union of tables without empty values has no empty value. */
  lemma NoEmptyUnion(a: map<string, string>, b: map<string, string>)
    requires NoEmptyValue(a) && NoEmptyValue(b)
    ensures NoEmptyValue(a + b)
  {
  }

  /** Diet tag to badge colour class (src/App.tsx:106-115). */
  const DietFitColors: map<string, string> :=
    map[
      "vegetarian" := "bg-green-100 text-green-800",
      "vegan" := "bg-emerald-100 text-emerald-800",
      "high-protein" := "bg-blue-100 text-blue-800",
      "low-carb" := "bg-purple-100 text-purple-800",
      "keto" := "bg-indigo-100 text-indigo-800",
      "gluten-free" := "bg-yellow-100 text-yellow-800",
      "dairy-free" := "bg-orange-100 text-orange-800",
      "low-calorie" := "bg-pink-100 text-pink-800"
    ]

  /** Diet tag to Turkish label (src/App.tsx:119-142). */
  const DietFitLabels: map<string, string> :=
    map[
      "vegetarian" := "Vejetaryen",
      "vegan" := "Vegan",
      "high-protein" := "Yüksek Protein",
      "low-carb" := "Düşük Karbonhidrat",
      "keto" := "Keto",
      "gluten-free" := "Glütensiz",
      "dairy-free" := "Süt Ürünü Yok",
      "low-calorie" := "Düşük Kalori",
      "not vegetarian" := "Vejetaryen Değil",
      "not vegan" := "Vegan Değil",
      "contains gluten" := "Glüten İçerir",
      "high-sugar" := "Yüksek Şeker",
      "not low-calorie" := "Düşük Kalori Değil",
      "paleo" := "Paleo",
      "high-fat" := "Yüksek Yağ",
      "low-fat" := "Düşük Yağ",
      "high-fiber" := "Yüksek Lif",
      "low-sodium" := "Düşük Sodyum",
      "high-sodium" := "Yüksek Sodyum"
    ]

  /** Food name to Turkish name (src/App.tsx:144-192). The object literal is
      written here as four parts whose keys are pairwise distinct, so their
      union is the same table: the names kept as they are, and the other
      names in three runs of source order. */
  const FoodNames: map<string, string> := FoodNamesA + FoodNamesB + FoodNamesC + FoodNamesKept

  /** The entries of src/App.tsx:146-151, 154, 156-158, 160-162. */
  const FoodNamesA: map<string, string> :=
    map[
      "Grilled Ribeye Steak" := "Izgara Ribeye Biftek",
      "Ribeye Steak" := "Ribeye Biftek",
      "Grilled Chicken Breast" := "Izgara Tavuk Göğsü",
      "Mixed Green Salad" := "Karışık Yeşil Salata",
      "Cherry Tomatoes" := "Kiraz Domates",
      "Cheeseburger" := "Hamburger",
      "Chicken Döner" := "Tavuk Döner",
      "Grilled Salmon" := "Izgara Somon",
      "Caesar Salad" := "Sezar Salatası",
      "French Fries" := "Patates Kızartması",
      "Pasta" := "Makarna",
      "Rice" := "Pilav",
      "Bread" := "Ekmek"
    ]

  /** The entries of src/App.tsx:163-175. */
  const FoodNamesB: map<string, string> :=
    map[
      "Egg" := "Yumurta",
      "Milk" := "Süt",
      "Cheese" := "Peynir",
      "Yogurt" := "Yoğurt",
      "Apple" := "Elma",
      "Banana" := "Muz",
      "Orange" := "Portakal",
      "Strawberry" := "Çilek",
      "Broccoli" := "Brokoli",
      "Carrot" := "Havuç",
      "Spinach" := "Ispanak",
      "Potato" := "Patates",
      "Onion" := "Soğan"
    ]

  /** The entries of src/App.tsx:176-189. */
  const FoodNamesC: map<string, string> :=
    map[
      "Garlic" := "Sarımsak",
      "Tomato" := "Domates",
      "Cucumber" := "Salatalık",
      "Lettuce" := "Marul",
      "Avocado" := "Avokado",
      "Olive Oil" := "Zeytinyağı",
      "Butter" := "Tereyağı",
      "Honey" := "Bal",
      "Sugar" := "Şeker",
      "Salt" := "Tuz",
      "Pepper" := "Karabiber",
      "Grilled Mushrooms" := "Izgara Mantar",
      "Grilled Corn on the Cob" := "Izgara Mısır",
      "Grilled Mixed Vegetables" := "Izgara Karışık Sebze"
    ]

  /** The names the table maps to themselves (src/App.tsx:152-153, 155, 159). */
  const FoodNamesKept: map<string, string> :=
    map[
      "Lahmacun" := "Lahmacun",
      "Menemen" := "Menemen",
      "Baklava" := "Baklava",
      "Pizza" := "Pizza"
    ]

  /** Nutrition note to Turkish note (src/App.tsx:194-219), written as three
      runs of seven entries in source order. */
  const Notes: map<string, string> := NotesA + NotesB + NotesC

  /** The entries of src/App.tsx:196-202. */
  const NotesA: map<string, string> :=
    map[
      "High in protein and essential nutrients like iron and B12, but also high in saturated fat." := "Demir ve B12 gibi temel besinler açısından zengin, yüksek protein içerir ancak doymuş yağ oranı da yüksektir.",
      "Consider reducing portion size to 200g and trimming visible fat." := "Porsiyon boyutunu 200g'a düşürmeyi ve görünür yağları temizlemeyi düşünün.",
      "Excellent lean protein source, low in fat and zero carbs" := "Mükemmel yağsız protein kaynağı, düşük yağ ve sıfır karbonhidrat",
      "Consider using herbs and lemon for seasoning instead of salt" := "Tuz yerine baharat ve limon kullanmayı düşünün",
      "Rich in vitamins, minerals, and fiber" := "Vitamin, mineral ve lif açısından zengin",
      "Add a variety of colorful vegetables for more nutrients" := "Daha fazla besin için renkli sebzeler ekleyin",
      "Good source of vitamin C and antioxidants" := "C vitamini ve antioksidanlar açısından iyi kaynak"
    ]

  /** The entries of src/App.tsx:203-209. */
  const NotesB: map<string, string> :=
    map[
      "Opt for different colored tomatoes for varied antioxidant profiles" := "Farklı antioksidan profilleri için farklı renkli domatesleri tercih edin",
      "High in protein but also high in saturated fat." := "Yüksek protein içerir ancak doymuş yağ oranı da yüksektir.",
      "Use lean meat or whole-grain bun to reduce calories and improve balance." := "Kaloriyi azaltmak ve dengeyi iyileştirmek için yağsız et veya tam tahıllı ekmek kullanın.",
      "Rich in carbs due to dough, moderate protein from minced meat." := "Hamur nedeniyle karbonhidrat açısından zengin, kıyma ile orta düzeyde protein.",
      "Pair with fresh salad and lemon to balance nutrients." := "Besinleri dengelemek için taze salata ve limon ile eşleştirin.",
      "Egg-based dish high in healthy fats and a good protein source." := "Sağlıklı yağlar açısından zengin, iyi protein kaynağı yumurta bazlı yemek.",
      "Use less oil or add spinach for extra fiber." := "Daha az yağ kullanın veya ekstra lif için ıspanak ekleyin."
    ]

  /** The entries of src/App.tsx:210-216. */
  const NotesC: map<string, string> :=
    map[
      "High in protein, moderate carbs from bread." := "Yüksek protein, ekmekten orta düzeyde karbonhidrat.",
      "Opt for a salad wrap instead of bread for fewer carbs." := "Daha az karbonhidrat için ekmek yerine salata wrap tercih edin.",
      "Very high in sugar and fat, low in protein." := "Çok yüksek şeker ve yağ, düşük protein.",
      "Enjoy in moderation or share a portion." := "Ölçülü tüketin veya porsiyonu paylaşın.",
      "Low calorie, good source of nutrients and antioxidants" := "Düşük kalori, besin ve antioksidanlar açısından iyi kaynak",
      "Good source of fiber and complex carbohydrates" := "Lif ve kompleks karbonhidratlar açısından iyi kaynak",
      "Low calorie, high in vitamins and minerals" := "Düşük kalori, vitamin ve mineraller açısından zengin"
    ]

  /** Item tip to Turkish tip (src/App.tsx:221-238). */
  const Tips: map<string, string> :=
    map[
      "Consider reducing portion size to 200g and trimming visible fat." := "Porsiyon boyutunu 200g'a düşürmeyi ve görünür yağları temizlemeyi düşünün.",
      "Consider trimming visible fat or reducing portion size to 170g" := "Görünür yağları temizlemeyi veya porsiyon boyutunu 170g'a düşürmeyi düşünün",
      "Consider using herbs and lemon for seasoning instead of salt" := "Tuz yerine baharat ve limon kullanmayı düşünün",
      "Add a variety of colorful vegetables for more nutrients" := "Daha fazla besin için renkli sebzeler ekleyin",
      "Opt for different colored tomatoes for varied antioxidant profiles" := "Farklı antioksidan profilleri için farklı renkli domatesleri tercih edin",
      "Use lean meat or whole-grain bun to reduce calories and improve balance." := "Kaloriyi azaltmak ve dengeyi iyileştirmek için yağsız et veya tam tahıllı ekmek kullanın.",
      "Pair with fresh salad and lemon to balance nutrients." := "Besinleri dengelemek için taze salata ve limon ile eşleştirin.",
      "Use less oil or add spinach for extra fiber." := "Daha az yağ kullanın veya ekstra lif için ıspanak ekleyin.",
      "Opt for a salad wrap instead of bread for fewer carbs." := "Daha az karbonhidrat için ekmek yerine salata wrap tercih edin.",
      "Enjoy in moderation or share a portion." := "Ölçülü tüketin veya porsiyonu paylaşın.",
      "Perfect as is - could even increase portion for more nutrients" := "Mükemmel - daha fazla besin için porsiyonu bile artırabilirsiniz",
      "Consider eating without added butter to reduce fat intake" := "Yağ alımını azaltmak için tereyağı eklemeden yemeyi düşünün",
      "Great choice - consider increasing portion for more vegetables in meal" := "Harika seçim - yemekte daha fazla sebze için porsiyonu artırmayı düşünün"
    ]

  /** Summary sentence to Turkish sentence (src/App.tsx:240-252). */
  const Summaries: map<string, string> :=
    map[
      "High protein and high fat meal with moderate carbs, dominated by the large portion of steak." := "Büyük biftek porsiyonu ile domine edilen, yüksek protein ve yağ, orta düzeyde karbonhidrat içeren yemek.",
      "High protein and high fat meal with moderate carbs, dominated by the steak portion" := "Biftek porsiyonu ile domine edilen, yüksek protein ve yağ, orta düzeyde karbonhidrat içeren yemek.",
      "To improve balance, reduce steak portion, increase vegetables, and consider adding a whole grain side dish for more balanced nutrition." := "Dengeyi iyileştirmek için biftek porsiyonunu azaltın, sebzeleri artırın ve daha dengeli beslenme için tam tahıllı yan yemek eklemeyi düşünün.",
      "Consider reducing steak portion and increasing vegetables for better balance, or choose a leaner cut of meat" := "Daha iyi denge için biftek porsiyonunu azaltın ve sebzeleri artırın, veya daha yağsız bir et kesimi seçin",
      "High protein, low carb, moderate fat meal with good nutrition balance" := "İyi beslenme dengesi ile yüksek protein, düşük karbonhidrat, orta düzeyde yağ içeren yemek",
      "Consider adding a small portion of healthy fats like olive oil or avocado to increase satiety and nutrient absorption" := "Doygunluk ve besin emilimini artırmak için zeytinyağı veya avokado gibi sağlıklı yağlar eklemeyi düşünün",
      "High in carbs and fats, moderate protein." := "Yüksek karbonhidrat ve yağ, orta düzeyde protein.",
      "Add more fresh vegetables or legumes to improve fiber and micronutrient intake." := "Lif ve mikro besin alımını iyileştirmek için daha fazla taze sebze veya baklagil ekleyin."
    ]

  // Facts about the concrete tables, stated part by part so that each proof
  // obligation stays small.

  // No table maps a key to the empty string.

  lemma DietFitColorsNoEmpty() ensures NoEmptyValue(DietFitColors) {}
  lemma DietFitLabelsNoEmpty() ensures NoEmptyValue(DietFitLabels) {}
  lemma TipsNoEmpty() ensures NoEmptyValue(Tips) {}
  lemma SummariesNoEmpty() ensures NoEmptyValue(Summaries) {}
  lemma FoodNamesANoEmpty() ensures NoEmptyValue(FoodNamesA) {}
  lemma FoodNamesBNoEmpty() ensures NoEmptyValue(FoodNamesB) {}
  lemma FoodNamesCNoEmpty() ensures NoEmptyValue(FoodNamesC) {}
  lemma FoodNamesKeptNoEmpty() ensures NoEmptyValue(FoodNamesKept) {}
  lemma NotesANoEmpty() ensures NoEmptyValue(NotesA) {}
  lemma NotesBNoEmpty() ensures NoEmptyValue(NotesB) {}
  lemma NotesCNoEmpty() ensures NoEmptyValue(NotesC) {}

  lemma FoodNamesNoEmpty() ensures NoEmptyValue(FoodNames)
  {
    FoodNamesANoEmpty();
    FoodNamesBNoEmpty();
    FoodNamesCNoEmpty();
    FoodNamesKeptNoEmpty();
    NoEmptyUnion(FoodNamesA, FoodNamesB);
    NoEmptyUnion(FoodNamesA + FoodNamesB, FoodNamesC);
    NoEmptyUnion(FoodNamesA + FoodNamesB + FoodNamesC, FoodNamesKept);
  }

  lemma NotesNoEmpty() ensures NoEmptyValue(Notes)
  {
    NotesANoEmpty();
    NotesBNoEmpty();
    NotesCNoEmpty();
    NoEmptyUnion(NotesA, NotesB);
    NoEmptyUnion(NotesA + NotesB, NotesC);
  }

  // No translated value is itself a key of its table, except the food names
  // kept as they are.
  lemma DietFitLabelsDisjoint() ensures DietFitLabels.Keys !! DietFitLabels.Values {}
  lemma TipsDisjoint() ensures Tips.Keys !! Tips.Values {}
  lemma SummariesDisjoint() ensures Summaries.Keys !! Summaries.Values {}

  lemma NotesAA() ensures NotesA.Values !! NotesA.Keys {}
  lemma NotesAB() ensures NotesA.Values !! NotesB.Keys {}
  lemma NotesAC() ensures NotesA.Values !! NotesC.Keys {}
  lemma NotesBA() ensures NotesB.Values !! NotesA.Keys {}
  lemma NotesBB() ensures NotesB.Values !! NotesB.Keys {}
  lemma NotesBC() ensures NotesB.Values !! NotesC.Keys {}
  lemma NotesCA() ensures NotesC.Values !! NotesA.Keys {}
  lemma NotesCB() ensures NotesC.Values !! NotesB.Keys {}
  lemma NotesCC() ensures NotesC.Values !! NotesC.Keys {}

  lemma FoodNamesAA() ensures FoodNamesA.Values !! FoodNamesA.Keys {}
  lemma FoodNamesAB() ensures FoodNamesA.Values !! FoodNamesB.Keys {}
  lemma FoodNamesAC() ensures FoodNamesA.Values !! FoodNamesC.Keys {}
  lemma FoodNamesBA() ensures FoodNamesB.Values !! FoodNamesA.Keys {}
  lemma FoodNamesBB() ensures FoodNamesB.Values !! FoodNamesB.Keys {}
  lemma FoodNamesBC() ensures FoodNamesB.Values !! FoodNamesC.Keys {}
  lemma FoodNamesCA() ensures FoodNamesC.Values !! FoodNamesA.Keys {}
  lemma FoodNamesCB() ensures FoodNamesC.Values !! FoodNamesB.Keys {}
  lemma FoodNamesCC() ensures FoodNamesC.Values !! FoodNamesC.Keys {}
  lemma FoodNamesAKept() ensures FoodNamesA.Values !! FoodNamesKept.Keys {}
  lemma FoodNamesBKept() ensures FoodNamesB.Values !! FoodNamesKept.Keys {}
  lemma FoodNamesCKept() ensures FoodNamesC.Values !! FoodNamesKept.Keys {}
  lemma FoodNamesKeptSame() ensures forall k :: k in FoodNamesKept ==> FoodNamesKept[k] == k {}

  // Every table's values are fixed points of the table.
  lemma NotesValuesFixed() ensures ValuesFixed(Notes)
  {
    NotesAA();
    NotesAB();
    NotesAC();
    NotesBA();
    NotesBB();
    NotesBC();
    NotesCA();
    NotesCB();
    NotesCC();
    DisjointUnion3(NotesA, NotesB, NotesC);
    DisjointValuesFixed(Notes);
  }

  lemma FoodNamesValuesFixed() ensures ValuesFixed(FoodNames)
  {
    FoodNamesAA();
    FoodNamesAB();
    FoodNamesAC();
    FoodNamesBA();
    FoodNamesBB();
    FoodNamesBC();
    FoodNamesCA();
    FoodNamesCB();
    FoodNamesCC();
    DisjointUnion3(FoodNamesA, FoodNamesB, FoodNamesC);
    FoodNamesAKept();
    FoodNamesBKept();
    FoodNamesCKept();
    UnionValues(FoodNamesA, FoodNamesB);
    UnionValues(FoodNamesA + FoodNamesB, FoodNamesC);
    FoodNamesKeptSame();
    KeptUnionValuesFixed(FoodNamesA + FoodNamesB + FoodNamesC, FoodNamesKept);
  }

  lemma DietFitLabelsValuesFixed() ensures ValuesFixed(DietFitLabels)
  {
    DietFitLabelsDisjoint();
    DisjointValuesFixed(DietFitLabels);
  }

  lemma TipsValuesFixed() ensures ValuesFixed(Tips)
  {
    TipsDisjoint();
    DisjointValuesFixed(Tips);
  }

  lemma SummariesValuesFixed() ensures ValuesFixed(Summaries)
  {
    SummariesDisjoint();
    DisjointValuesFixed(Summaries);
  }

  /** `getDietFitColor` (src/App.tsx:105-117): the tag's class, or grey. */
  function DietFitColor(tag: string): (r: string)
    ensures tag in DietFitColors ==> r == DietFitColors[tag]
    ensures tag !in DietFitColors ==> r == DefaultColour
  {
    DietFitColorsNoEmpty();
    ColourClass(DietFitColors, tag)
  }

  /** `translateDietFit` (src/App.tsx:119-142). */
  function TranslateDietFit(tag: string): (r: string)
    ensures tag in DietFitLabels ==> r == DietFitLabels[tag]
    ensures tag !in DietFitLabels ==> r == tag
  {
    DietFitLabelsNoEmpty();
    Translate(DietFitLabels, tag)
  }

  /** `translateFoodName` (src/App.tsx:144-192). */
  function TranslateFoodName(name: string): (r: string)
    ensures name in FoodNames ==> r == FoodNames[name]
    ensures name !in FoodNames ==> r == name
  {
    FoodNamesNoEmpty();
    Translate(FoodNames, name)
  }

  /** `translateNote` (src/App.tsx:194-219). */
  function TranslateNote(note: string): (r: string)
    ensures note in Notes ==> r == Notes[note]
    ensures note !in Notes ==> r == note
  {
    NotesNoEmpty();
    Translate(Notes, note)
  }

  /** `translateTip` (src/App.tsx:221-238). */
  function TranslateTip(tip: string): (r: string)
    ensures tip in Tips ==> r == Tips[tip]
    ensures tip !in Tips ==> r == tip
  {
    TipsNoEmpty();
    Translate(Tips, tip)
  }

  /** `translateSummary` (src/App.tsx:240-252). */
  function TranslateSummary(summary: string): (r: string)
    ensures summary in Summaries ==> r == Summaries[summary]
    ensures summary !in Summaries ==> r == summary
  {
    SummariesNoEmpty();
    Translate(Summaries, summary)
  }

  /** Translating a diet tag twice is translating it once. */
  lemma TranslateDietFitIdempotent(tag: string)
    ensures TranslateDietFit(TranslateDietFit(tag)) == TranslateDietFit(tag)
  {
    DietFitLabelsValuesFixed();
    TranslateIdempotent(DietFitLabels, tag);
  }

  /** Translating a food name twice is translating it once; the names the
      table keeps as they are (Lahmacun, Menemen, Baklava, Pizza) are the only
      values that are also keys. */
  lemma TranslateFoodNameIdempotent(name: string)
    ensures TranslateFoodName(TranslateFoodName(name)) == TranslateFoodName(name)
  {
    FoodNamesValuesFixed();
    TranslateIdempotent(FoodNames, name);
  }

  /** Translating a note twice is translating it once. */
  lemma TranslateNoteIdempotent(note: string)
    ensures TranslateNote(TranslateNote(note)) == TranslateNote(note)
  {
    NotesValuesFixed();
    TranslateIdempotent(Notes, note);
  }

  /** Translating a tip twice is translating it once. */
  lemma TranslateTipIdempotent(tip: string)
    ensures TranslateTip(TranslateTip(tip)) == TranslateTip(tip)
  {
    TipsValuesFixed();
    TranslateIdempotent(Tips, tip);
  }

  /** Translating a summary sentence twice is translating it once. */
  lemma TranslateSummaryIdempotent(summary: string)
    ensures TranslateSummary(TranslateSummary(summary)) == TranslateSummary(summary)
  {
    SummariesValuesFixed();
    TranslateIdempotent(Summaries, summary);
  }

  /** Every tag that has a colour also has a label. */
  lemma ColourKeysAreLabelKeys()
    ensures DietFitColors.Keys <= DietFitLabels.Keys
  {
  }

  /** No known tag is coloured grey, so the grey class marks exactly the tags
      without a colour. */
  lemma GreyMeansUncoloured(tag: string)
    ensures DietFitColor(tag) == DefaultColour <==> tag !in DietFitColors
  {
  }

  /** 'high-fat' is translated to 'Yüksek Yağ' but has no colour of its own,
      so its badge is grey. */
  lemma HighFatLabelledButGrey()
    ensures TranslateDietFit("high-fat") == "Yüksek Yağ"
    ensures DietFitColor("high-fat") == DefaultColour
  {
  }

  // The lower-case "pizza" is not a food name key.
  lemma PizzaNotInA() ensures "pizza" !in FoodNamesA {}
  lemma PizzaNotInB() ensures "pizza" !in FoodNamesB {}
  lemma PizzaNotInC() ensures "pizza" !in FoodNamesC {}
  lemma PizzaNotInKept() ensures "pizza" !in FoodNamesKept {}

  /** The lookup is exact and case-sensitive: "Pizza" is a key, the
      lower-case "pizza" is not and is shown as it is. */
  lemma FoodNameLookupIsExact()
    ensures TranslateFoodName("Pizza") == "Pizza"
    ensures TranslateFoodName("pizza") == "pizza"
  {
    PizzaNotInA();
    PizzaNotInB();
    PizzaNotInC();
    PizzaNotInKept();
  }

  /** The summary table is a table of its own: the sentence "Enjoy in
      moderation or share a portion.", which the tip and note tables
      translate, is not one of its keys and passes through unchanged. */
  lemma TipSentenceNotASummary()
    ensures TranslateSummary("Enjoy in moderation or share a portion.") == "Enjoy in moderation or share a portion."
  {
  }
}
