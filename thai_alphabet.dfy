/** The 41-entry consonant catalogue of src/app/utils/thaiAlphabet.ts, which the game
    engine, the game reducer, the image action and the alphabet list import, with the
    facts the engine relies on: sequential unique orders and unique symbols. Facts about
    every entry are proved a third of the catalogue at a time, to keep each proof small. */
module ThaiAlphabet {
  import opened Wrappers
  import opened Letters
  import ThaiSymbols

  const Catalogue: seq<Letter> := [
    Letter("ก", 1, consonantGroup := Some(Middle), imageSrc := Some("/gaw-gai.webp"),
      thaiExampleDescription := Some("ไก่"), romanization := Some("gaw gai"),
      romanExampleDescription := Some("Chicken"), isConsonant := Some(true)),
    Letter("จ", 2, consonantGroup := Some(Middle), imageSrc := Some("/jauw-jaan.webp"),
      thaiExampleDescription := Some("จาน"), romanization := Some("jauw jaan"),
      romanExampleDescription := Some("Plate"), isConsonant := Some(true)),
    Letter("ด", 3, consonantGroup := Some(Middle), imageSrc := Some("/daw-dek.webp"),
      thaiExampleDescription := Some("เด็ก"), romanization := Some("daw dek"),
      romanExampleDescription := Some("Child"), isConsonant := Some(true)),
    Letter("ฎ", 4, consonantGroup := Some(Middle), imageSrc := Some("/daw-chada.webp"),
      thaiExampleDescription := Some("ชฎา"), romanization := Some("daw chada"),
      romanExampleDescription := Some("Headdress"), isConsonant := Some(true)),
    Letter("ต", 5, consonantGroup := Some(Middle), imageSrc := Some("/daw-dtao.webp"),
      thaiExampleDescription := Some("เต่า"), romanization := Some("daw dtao"),
      romanExampleDescription := Some("Turtle"), isConsonant := Some(true)),
    Letter("ฏ", 6, consonantGroup := Some(Middle), imageSrc := Some("/daw-padak.webp"),
      thaiExampleDescription := Some("ปฏัก"), romanization := Some("daw padak"),
      romanExampleDescription := Some("Goad (Cattle prod)"), isConsonant := Some(true)),
    Letter("บ", 7, consonantGroup := Some(Middle), imageSrc := Some("/baw-bai-mai.webp"),
      thaiExampleDescription := Some("ใบไม้"), romanization := Some("baw bai mai"),
      romanExampleDescription := Some("Leaf"), isConsonant := Some(true)),
    Letter("ป", 8, consonantGroup := Some(Middle), imageSrc := Some("/baw-bplaa.webp"),
      thaiExampleDescription := Some("ปลา"), romanization := Some("baw bplaa"),
      romanExampleDescription := Some("Fish"), isConsonant := Some(true)),
    Letter("อ", 9, consonantGroup := Some(Middle), imageSrc := Some("/aw-ang.webp"),
      thaiExampleDescription := Some("อ่าง"), romanization := Some("aw ang"),
      romanExampleDescription := Some("Basin"), isConsonant := Some(true)),
    Letter("ข", 10, consonantGroup := Some(High), imageSrc := Some("/kaw-khai.webp"),
      thaiExampleDescription := Some("ไข่"), romanization := Some("kaw khai"),
      romanExampleDescription := Some("Egg"), isConsonant := Some(true)),
    Letter("ฉ", 11, consonantGroup := Some(High), imageSrc := Some("/chaw-ching.webp"),
      thaiExampleDescription := Some("ฉิ่ง"), romanization := Some("chaw ching"),
      romanExampleDescription := Some("Cymbals"), isConsonant := Some(true)),
    Letter("ถ", 12, consonantGroup := Some(High), imageSrc := Some("/taw-tung.webp"),
      thaiExampleDescription := Some("ถุง"), romanization := Some("taw tung"),
      romanExampleDescription := Some("Bag"), isConsonant := Some(true)),
    Letter("ฐ", 13, consonantGroup := Some(High), imageSrc := Some("/taw-taan.webp"),
      thaiExampleDescription := Some("ฐาน"), romanization := Some("taw taan"),
      romanExampleDescription := Some("Pedestal"), isConsonant := Some(true)),
    Letter("ผ", 14, consonantGroup := Some(High), imageSrc := Some("/paw-phung.webp"),
      thaiExampleDescription := Some("ผึ้ง"), romanization := Some("paw phung"),
      romanExampleDescription := Some("Bee"), isConsonant := Some(true)),
    Letter("ฝ", 15, consonantGroup := Some(High), imageSrc := Some("/faw-faa.webp"),
      thaiExampleDescription := Some("ฝา"), romanization := Some("faw faa"),
      romanExampleDescription := Some("Lid"), isConsonant := Some(true)),
    Letter("ศ", 16, consonantGroup := Some(High), imageSrc := Some("/saw-sala.webp"),
      thaiExampleDescription := Some("ศาลา"), romanization := Some("saw sala"),
      romanExampleDescription := Some("Pavilion"), isConsonant := Some(true)),
    Letter("ษ", 17, consonantGroup := Some(High), imageSrc := Some("/saw-ruusii.webp"),
      thaiExampleDescription := Some("ฤๅษี"), romanization := Some("saw ruusii"),
      romanExampleDescription := Some("Hermit"), isConsonant := Some(true)),
    Letter("ส", 18, consonantGroup := Some(High), imageSrc := Some("/saw-suaa.webp"),
      thaiExampleDescription := Some("เสือ"), romanization := Some("saw suaa"),
      romanExampleDescription := Some("Tiger"), isConsonant := Some(true)),
    Letter("ห", 19, consonantGroup := Some(High), imageSrc := Some("/haw-heap.webp"),
      thaiExampleDescription := Some("หีบ"), romanization := Some("haw heap"),
      romanExampleDescription := Some("Chest"), isConsonant := Some(true)),
    Letter("ค", 20, consonantGroup := Some(Low), imageSrc := Some("/khaw-khwai.webp"),
      thaiExampleDescription := Some("ควาย"), romanization := Some("khaw khwai"),
      romanExampleDescription := Some("Buffalo"), isConsonant := Some(true)),
    Letter("ฆ", 21, consonantGroup := Some(Low), imageSrc := Some("/kaw-rakang.webp"),
      thaiExampleDescription := Some("ระฆัง"), romanization := Some("kaw rakang"),
      romanExampleDescription := Some("Bell"), isConsonant := Some(true)),
    Letter("ช", 22, consonantGroup := Some(Low), imageSrc := Some("/chaw-ching.webp"),
      thaiExampleDescription := Some("ช้าง"), romanization := Some("chaw ching"),
      romanExampleDescription := Some("Elephant"), isConsonant := Some(true)),
    Letter("ฌ", 23, consonantGroup := Some(Low), imageSrc := Some("/chaw-chuur.webp"),
      thaiExampleDescription := Some("เฌอ"), romanization := Some("chaw chuur"),
      romanExampleDescription := Some("Tree"), isConsonant := Some(true)),
    Letter("ท", 24, consonantGroup := Some(Low), imageSrc := Some("/taw-thahaan.webp"),
      thaiExampleDescription := Some("ทหาร"), romanization := Some("taw thahaan"),
      romanExampleDescription := Some("Soldier"), isConsonant := Some(true)),
    Letter("ธ", 25, consonantGroup := Some(Low), imageSrc := Some("/taw-thong.webp"),
      thaiExampleDescription := Some("ธง"), romanization := Some("taw thong"),
      romanExampleDescription := Some("Flag"), isConsonant := Some(true)),
    Letter("ฒ", 26, consonantGroup := Some(Low), imageSrc := Some("/taw-putow.webp"),
      thaiExampleDescription := Some("ผู้เฒ่า"), romanization := Some("taw putow"),
      romanExampleDescription := Some("Elder"), isConsonant := Some(true)),
    Letter("พ", 27, consonantGroup := Some(Low), imageSrc := Some("/phaw-phaan.webp"),
      thaiExampleDescription := Some("พาน"), romanization := Some("phaw phaan"),
      romanExampleDescription := Some("Pedestal tray"), isConsonant := Some(true)),
    Letter("ภ", 28, consonantGroup := Some(Low), imageSrc := Some("/phaw-samphao.webp"),
      thaiExampleDescription := Some("สำเภา"), romanization := Some("phaw samphao"),
      romanExampleDescription := Some("Sailing ship"), isConsonant := Some(true)),
    Letter("ฟ", 29, consonantGroup := Some(Low), imageSrc := Some("/faw-fun.webp"),
      thaiExampleDescription := Some("ฟัน"), romanization := Some("faw fun"),
      romanExampleDescription := Some("Tooth"), isConsonant := Some(true)),
    Letter("ซ", 30, consonantGroup := Some(Low), imageSrc := Some("/saw-soo.webp"),
      thaiExampleDescription := Some("โซ่"), romanization := Some("saw soo"),
      romanExampleDescription := Some("Chain"), isConsonant := Some(true)),
    Letter("ฮ", 31, consonantGroup := Some(Low), imageSrc := Some("/hoo-nok-hook.webp"),
      thaiExampleDescription := Some("นกฮูก"), romanization := Some("hoo nok hook"),
      romanExampleDescription := Some("Owl"), isConsonant := Some(true)),
    Letter("ง", 32, consonantGroup := Some(Low), imageSrc := Some("/ngaw-ngu.webp"),
      thaiExampleDescription := Some("งู"), romanization := Some("ngaw ngu"),
      romanExampleDescription := Some("Snake"), isConsonant := Some(true)),
    Letter("น", 33, consonantGroup := Some(Low), imageSrc := Some("/naw-nuu.webp"),
      thaiExampleDescription := Some("หนู"), romanization := Some("naw nuu"),
      romanExampleDescription := Some("Mouse"), isConsonant := Some(true)),
    Letter("ณ", 34, consonantGroup := Some(Low), imageSrc := Some("/naw-naan.webp"),
      thaiExampleDescription := Some("เณร"), romanization := Some("naw naan"),
      romanExampleDescription := Some("Novice monk"), isConsonant := Some(true)),
    Letter("ม", 35, consonantGroup := Some(Low), imageSrc := Some("/maw-maa.webp"),
      thaiExampleDescription := Some("ม้า"), romanization := Some("maw maa"),
      romanExampleDescription := Some("Horse"), isConsonant := Some(true)),
    Letter("ย", 36, consonantGroup := Some(Low), imageSrc := Some("/yaw-yuk.webp"),
      thaiExampleDescription := Some("ยักษ์"), romanization := Some("yaw yuk"),
      romanExampleDescription := Some("Giant"), isConsonant := Some(true)),
    Letter("ญ", 37, consonantGroup := Some(Low), imageSrc := Some("/yaw-ying.webp"),
      thaiExampleDescription := Some("หญิง"), romanization := Some("yaw ying"),
      romanExampleDescription := Some("Woman"), isConsonant := Some(true)),
    Letter("ร", 38, consonantGroup := Some(Low), imageSrc := Some("/raw-rua.webp"),
      thaiExampleDescription := Some("เรือ"), romanization := Some("raw rua"),
      romanExampleDescription := Some("Boat"), isConsonant := Some(true)),
    Letter("ล", 39, consonantGroup := Some(Low), imageSrc := Some("/law-ling.webp"),
      thaiExampleDescription := Some("ลิง"), romanization := Some("law ling"),
      romanExampleDescription := Some("Monkey"), isConsonant := Some(true)),
    Letter("ฬ", 40, consonantGroup := Some(Low), imageSrc := Some("/law-julaa.webp"),
      thaiExampleDescription := Some("จุฬา"), romanization := Some("law julaa"),
      romanExampleDescription := Some("Kite"), isConsonant := Some(true)),
    Letter("ว", 41, consonantGroup := Some(Low), imageSrc := Some("/waw-waen.webp"),
      thaiExampleDescription := Some("แหวน"), romanization := Some("waw waen"),
      romanExampleDescription := Some("Ring"), isConsonant := Some(true))
  ]

  lemma OrdersAreSequentialFrom0()
    ensures forall i | 0 <= i < 14 :: Catalogue[i].order == i + 1
  {
  }

  lemma OrdersAreSequentialFrom14()
    ensures forall i | 14 <= i < 28 :: Catalogue[i].order == i + 1
  {
  }

  lemma OrdersAreSequentialFrom28()
    ensures forall i | 28 <= i < 41 :: Catalogue[i].order == i + 1
  {
  }

  /** The catalogue holds 41 entries and the entry at index i has order i + 1. */
  lemma OrdersAreSequential()
    ensures |Catalogue| == 41
    ensures forall i | 0 <= i < |Catalogue| :: Catalogue[i].order == i + 1
  {
    OrdersAreSequentialFrom0();
    OrdersAreSequentialFrom14();
    OrdersAreSequentialFrom28();
  }

  /** Orders are unique and strictly increase along the catalogue. */
  lemma OrdersIncrease(i: int, j: int)
    requires 0 <= i < j < |Catalogue|
    ensures Catalogue[i].order < Catalogue[j].order
  {
    OrdersAreSequential();
  }

  lemma ConsonantClassesFrom0()
    ensures forall i | 0 <= i < 14 :: 
      && Catalogue[i].isConsonant == Some(true)
      && Catalogue[i].letterType == None
      && Catalogue[i].consonantGroup ==
             Some(if Catalogue[i].order <= 9 then Middle else if Catalogue[i].order <= 19 then High else Low)
  {
  }

  lemma ConsonantClassesFrom14()
    ensures forall i | 14 <= i < 28 :: 
      && Catalogue[i].isConsonant == Some(true)
      && Catalogue[i].letterType == None
      && Catalogue[i].consonantGroup ==
             Some(if Catalogue[i].order <= 9 then Middle else if Catalogue[i].order <= 19 then High else Low)
  {
  }

  lemma ConsonantClassesFrom28()
    ensures forall i | 28 <= i < 41 :: 
      && Catalogue[i].isConsonant == Some(true)
      && Catalogue[i].letterType == None
      && Catalogue[i].consonantGroup ==
             Some(if Catalogue[i].order <= 9 then Middle else if Catalogue[i].order <= 19 then High else Low)
  {
  }

  /** Every entry is a consonant: middle class for orders 1-9, high for 10-19, low for 20-41.
      No entry carries a `type`. */
  lemma ConsonantClasses()
    ensures forall i | 0 <= i < |Catalogue| :: 
      && Catalogue[i].isConsonant == Some(true)
      && Catalogue[i].letterType == None
      && Catalogue[i].consonantGroup ==
             Some(if Catalogue[i].order <= 9 then Middle else if Catalogue[i].order <= 19 then High else Low)
  {
    ConsonantClassesFrom0();
    ConsonantClassesFrom14();
    ConsonantClassesFrom28();
  }

  lemma SymbolsAreCharsFrom0()
    ensures forall i | 0 <= i < 14 :: Catalogue[i].symbol == [ThaiSymbols.SymbolChars[i]]
  {
  }

  lemma SymbolsAreCharsFrom14()
    ensures forall i | 14 <= i < 28 :: Catalogue[i].symbol == [ThaiSymbols.SymbolChars[i]]
  {
  }

  lemma SymbolsAreCharsFrom28()
    ensures forall i | 28 <= i < 41 :: Catalogue[i].symbol == [ThaiSymbols.SymbolChars[i]]
  {
  }

  /** Each symbol is the single character listed at its index. */
  lemma SymbolsAreChars()
    ensures |ThaiSymbols.SymbolChars| == |Catalogue|
    ensures forall i | 0 <= i < |Catalogue| :: Catalogue[i].symbol == [ThaiSymbols.SymbolChars[i]]
  {
    SymbolsAreCharsFrom0();
    SymbolsAreCharsFrom14();
    SymbolsAreCharsFrom28();
  }

  /** No two entries share a symbol, so the symbol identifies an entry. */
  lemma {:induction false} SymbolsDistinct()
    ensures DistinctSymbols(Catalogue)
  {
    SymbolsAreChars();
    ThaiSymbols.SymbolCharsDistinct();
    forall i, j | 0 <= i < j < |Catalogue| ensures Catalogue[i].symbol != Catalogue[j].symbol {
      assert Catalogue[i].symbol[0] == ThaiSymbols.SymbolChars[i];
      assert Catalogue[j].symbol[0] == ThaiSymbols.SymbolChars[j];
    }
  }

  /** Romanization is not an identity: 'ฉ' and 'ช' are both "chaw ching". */
  lemma RomanizationNotUnique()
    ensures Catalogue[10].symbol == "ฉ" && Catalogue[21].symbol == "ช"
    ensures Catalogue[10].romanization == Catalogue[21].romanization == Some("chaw ching")
  {
  }

  /** Nor is the image: 'ฉ' and 'ช' share "/chaw-ching.webp". */
  lemma ImageSrcNotUnique()
    ensures Catalogue[10].symbol != Catalogue[21].symbol
    ensures Catalogue[10].imageSrc == Catalogue[21].imageSrc == Some("/chaw-ching.webp")
  {
  }
}
