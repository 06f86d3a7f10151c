/** The typed consonant catalogue of src/app/utils/thaiAlphabet/consonants.ts: the same 41
    consonants as src/app/utils/thaiAlphabet.ts, each with a `type`, a transliteration split
    into prefix and word, and an image named after the transliteration. Facts about every
    entry are proved a third of the catalogue at a time, to keep each proof small. */
module Consonants {
  import opened Wrappers
  import opened Letters
  import ThaiSymbols
  import ThaiAlphabet
  import ConsonantImages

  const Catalogue: seq<Letter> := [
    Letter("ก", 1, letterType := Some(Consonant), consonantGroup := Some(Middle),
      imageSrc := Some("/gaw-gai.webp"), thaiExamplePrefix := Some("กอ"), thaiExampleDescription := Some("ไก่"),
      romanTransliterationPrefix := Some("gaw"), romanTransliteration := Some("gai"),
      romanDescription := Some("Chicken")),
    Letter("จ", 2, letterType := Some(Consonant), consonantGroup := Some(Middle),
      imageSrc := Some("/jauw-jaan.webp"), thaiExamplePrefix := Some("จอ"), thaiExampleDescription := Some("จาน"),
      romanTransliterationPrefix := Some("jauw"), romanTransliteration := Some("jaan"),
      romanDescription := Some("Plate")),
    Letter("ด", 3, letterType := Some(Consonant), consonantGroup := Some(Middle),
      imageSrc := Some("/daw-dek.webp"), thaiExamplePrefix := Some("ดอ"), thaiExampleDescription := Some("เด็ก"),
      romanTransliterationPrefix := Some("daw"), romanTransliteration := Some("dek"),
      romanDescription := Some("Child")),
    Letter("ฎ", 4, letterType := Some(Consonant), consonantGroup := Some(Middle),
      imageSrc := Some("/daw-chada.webp"), thaiExamplePrefix := Some("ฎอ"), thaiExampleDescription := Some("ชฎา"),
      romanTransliterationPrefix := Some("daw"), romanTransliteration := Some("chada"),
      romanDescription := Some("Headdress")),
    Letter("ต", 5, letterType := Some(Consonant), consonantGroup := Some(Middle),
      imageSrc := Some("/daw-dtao.webp"), thaiExamplePrefix := Some("ตอ"), thaiExampleDescription := Some("เต่า"),
      romanTransliterationPrefix := Some("daw"), romanTransliteration := Some("dtao"),
      romanDescription := Some("Turtle")),
    Letter("ฏ", 6, letterType := Some(Consonant), consonantGroup := Some(Middle),
      imageSrc := Some("/daw-padak.webp"), thaiExamplePrefix := Some("ฏอ"), thaiExampleDescription := Some("ปฏัก"),
      romanTransliterationPrefix := Some("daw"), romanTransliteration := Some("padak"),
      romanDescription := Some("Goad (Cattle prod)")),
    Letter("บ", 7, letterType := Some(Consonant), consonantGroup := Some(Middle),
      imageSrc := Some("/baw-bai-mai.webp"), thaiExamplePrefix := Some("บอ"), thaiExampleDescription := Some("ใบไม้"),
      romanTransliterationPrefix := Some("baw"), romanTransliteration := Some("bai mai"),
      romanDescription := Some("Leaf")),
    Letter("ป", 8, letterType := Some(Consonant), consonantGroup := Some(Middle),
      imageSrc := Some("/baw-bplaa.webp"), thaiExamplePrefix := Some("ปอ"), thaiExampleDescription := Some("ปลา"),
      romanTransliterationPrefix := Some("baw"), romanTransliteration := Some("bplaa"),
      romanDescription := Some("Fish")),
    Letter("อ", 9, letterType := Some(Consonant), consonantGroup := Some(Middle),
      imageSrc := Some("/aw-ang.webp"), thaiExamplePrefix := Some("ออ"), thaiExampleDescription := Some("อ่าง"),
      romanTransliterationPrefix := Some("aw"), romanTransliteration := Some("ang"),
      romanDescription := Some("Basin")),
    Letter("ข", 10, letterType := Some(Consonant), consonantGroup := Some(High),
      imageSrc := Some("/kaw-khai.webp"), thaiExamplePrefix := Some("ขอ"), thaiExampleDescription := Some("ไข่"),
      romanTransliterationPrefix := Some("kaw"), romanTransliteration := Some("khai"),
      romanDescription := Some("Egg")),
    Letter("ฉ", 11, letterType := Some(Consonant), consonantGroup := Some(High),
      imageSrc := Some("/chaw-ching.webp"), thaiExamplePrefix := Some("ฉอ"), thaiExampleDescription := Some("ฉิ่ง"),
      romanTransliterationPrefix := Some("chaw"), romanTransliteration := Some("ching"),
      romanDescription := Some("Cymbals")),
    Letter("ถ", 12, letterType := Some(Consonant), consonantGroup := Some(High),
      imageSrc := Some("/taw-tung.webp"), thaiExamplePrefix := Some("ถอ"), thaiExampleDescription := Some("ถุง"),
      romanTransliterationPrefix := Some("taw"), romanTransliteration := Some("tung"),
      romanDescription := Some("Bag")),
    Letter("ฐ", 13, letterType := Some(Consonant), consonantGroup := Some(High),
      imageSrc := Some("/taw-taan.webp"), thaiExamplePrefix := Some("ฐอ"), thaiExampleDescription := Some("ฐาน"),
      romanTransliterationPrefix := Some("taw"), romanTransliteration := Some("taan"),
      romanDescription := Some("Pedestal")),
    Letter("ผ", 14, letterType := Some(Consonant), consonantGroup := Some(High),
      imageSrc := Some("/paw-phung.webp"), thaiExamplePrefix := Some("ผอ"), thaiExampleDescription := Some("ผึ้ง"),
      romanTransliterationPrefix := Some("paw"), romanTransliteration := Some("phung"),
      romanDescription := Some("Bee")),
    Letter("ฝ", 15, letterType := Some(Consonant), consonantGroup := Some(High),
      imageSrc := Some("/faw-faa.webp"), thaiExamplePrefix := Some("ฝอ"), thaiExampleDescription := Some("ฝา"),
      romanTransliterationPrefix := Some("faw"), romanTransliteration := Some("faa"),
      romanDescription := Some("Lid")),
    Letter("ศ", 16, letterType := Some(Consonant), consonantGroup := Some(High),
      imageSrc := Some("/saw-sala.webp"), thaiExamplePrefix := Some("ศอ"), thaiExampleDescription := Some("ศาลา"),
      romanTransliterationPrefix := Some("saw"), romanTransliteration := Some("sala"),
      romanDescription := Some("Pavilion")),
    Letter("ษ", 17, letterType := Some(Consonant), consonantGroup := Some(High),
      imageSrc := Some("/saw-ruusii.webp"), thaiExamplePrefix := Some("ษอ"), thaiExampleDescription := Some("ฤๅษี"),
      romanTransliterationPrefix := Some("saw"), romanTransliteration := Some("ruusii"),
      romanDescription := Some("Hermit")),
    Letter("ส", 18, letterType := Some(Consonant), consonantGroup := Some(High),
      imageSrc := Some("/saw-suaa.webp"), thaiExamplePrefix := Some("สอ"), thaiExampleDescription := Some("เสือ"),
      romanTransliterationPrefix := Some("saw"), romanTransliteration := Some("suaa"),
      romanDescription := Some("Tiger")),
    Letter("ห", 19, letterType := Some(Consonant), consonantGroup := Some(High),
      imageSrc := Some("/haw-heap.webp"), thaiExamplePrefix := Some("หอ"), thaiExampleDescription := Some("หีบ"),
      romanTransliterationPrefix := Some("haw"), romanTransliteration := Some("heap"),
      romanDescription := Some("Chest")),
    Letter("ค", 20, letterType := Some(Consonant), consonantGroup := Some(Low),
      imageSrc := Some("/khaw-khwai.webp"), thaiExamplePrefix := Some("คอ"), thaiExampleDescription := Some("ควาย"),
      romanTransliterationPrefix := Some("khaw"), romanTransliteration := Some("khwai"),
      romanDescription := Some("Buffalo")),
    Letter("ฆ", 21, letterType := Some(Consonant), consonantGroup := Some(Low),
      imageSrc := Some("/kaw-rakang.webp"), thaiExamplePrefix := Some("ฆอ"), thaiExampleDescription := Some("ระฆัง"),
      romanTransliterationPrefix := Some("kaw"), romanTransliteration := Some("rakang"),
      romanDescription := Some("Bell")),
    Letter("ช", 22, letterType := Some(Consonant), consonantGroup := Some(Low),
      imageSrc := Some("/chaw-chaang.webp"), thaiExamplePrefix := Some("ชอ"), thaiExampleDescription := Some("ช้าง"),
      romanTransliterationPrefix := Some("chaw"), romanTransliteration := Some("chaang"),
      romanDescription := Some("Elephant")),
    Letter("ฌ", 23, letterType := Some(Consonant), consonantGroup := Some(Low),
      imageSrc := Some("/chaw-cheur.webp"), thaiExamplePrefix := Some("ฌอ"), thaiExampleDescription := Some("เฌอ"),
      romanTransliterationPrefix := Some("chaw"), romanTransliteration := Some("cheur"),
      romanDescription := Some("Tree")),
    Letter("ท", 24, letterType := Some(Consonant), consonantGroup := Some(Low),
      imageSrc := Some("/taw-thahaan.webp"), thaiExamplePrefix := Some("ทอ"), thaiExampleDescription := Some("ทหาร"),
      romanTransliterationPrefix := Some("taw"), romanTransliteration := Some("thahaan"),
      romanDescription := Some("Soldier")),
    Letter("ธ", 25, letterType := Some(Consonant), consonantGroup := Some(Low),
      imageSrc := Some("/taw-thong.webp"), thaiExamplePrefix := Some("ธอ"), thaiExampleDescription := Some("ธง"),
      romanTransliterationPrefix := Some("taw"), romanTransliteration := Some("thong"),
      romanDescription := Some("Flag")),
    Letter("ฒ", 26, letterType := Some(Consonant), consonantGroup := Some(Low),
      imageSrc := Some("/taw-putow.webp"), thaiExamplePrefix := Some("ฒอ"), thaiExampleDescription := Some("ผู้เฒ่า"),
      romanTransliterationPrefix := Some("taw"), romanTransliteration := Some("putow"),
      romanDescription := Some("Elder")),
    Letter("พ", 27, letterType := Some(Consonant), consonantGroup := Some(Low),
      imageSrc := Some("/phaw-phaan.webp"), thaiExamplePrefix := Some("พอ"), thaiExampleDescription := Some("พาน"),
      romanTransliterationPrefix := Some("phaw"), romanTransliteration := Some("phaan"),
      romanDescription := Some("Pedestal tray")),
    Letter("ภ", 28, letterType := Some(Consonant), consonantGroup := Some(Low),
      imageSrc := Some("/phaw-samphao.webp"), thaiExamplePrefix := Some("ภอ"), thaiExampleDescription := Some("สำเภา"),
      romanTransliterationPrefix := Some("phaw"), romanTransliteration := Some("samphao"),
      romanDescription := Some("Sailing ship")),
    Letter("ฟ", 29, letterType := Some(Consonant), consonantGroup := Some(Low),
      imageSrc := Some("/faw-fun.webp"), thaiExamplePrefix := Some("ฟอ"), thaiExampleDescription := Some("ฟัน"),
      romanTransliterationPrefix := Some("faw"), romanTransliteration := Some("fun"),
      romanDescription := Some("Tooth")),
    Letter("ซ", 30, letterType := Some(Consonant), consonantGroup := Some(Low),
      imageSrc := Some("/saw-soo.webp"), thaiExamplePrefix := Some("ซอ"), thaiExampleDescription := Some("โซ่"),
      romanTransliterationPrefix := Some("saw"), romanTransliteration := Some("soo"),
      romanDescription := Some("Chain")),
    Letter("ฮ", 31, letterType := Some(Consonant), consonantGroup := Some(Low),
      imageSrc := Some("/hoo-nok-hook.webp"), thaiExamplePrefix := Some("ฮอ"), thaiExampleDescription := Some("นกฮูก"),
      romanTransliterationPrefix := Some("hoo"), romanTransliteration := Some("nok hook"),
      romanDescription := Some("Owl")),
    Letter("ง", 32, letterType := Some(Consonant), consonantGroup := Some(Low),
      imageSrc := Some("/ngaw-ngu.webp"), thaiExamplePrefix := Some("งอ"), thaiExampleDescription := Some("งู"),
      romanTransliterationPrefix := Some("ngaw"), romanTransliteration := Some("ngu"),
      romanDescription := Some("Snake")),
    Letter("น", 33, letterType := Some(Consonant), consonantGroup := Some(Low),
      imageSrc := Some("/naw-nuu.webp"), thaiExamplePrefix := Some("นอ"), thaiExampleDescription := Some("หนู"),
      romanTransliterationPrefix := Some("naw"), romanTransliteration := Some("nuu"),
      romanDescription := Some("Mouse")),
    Letter("ณ", 34, letterType := Some(Consonant), consonantGroup := Some(Low),
      imageSrc := Some("/naw-naan.webp"), thaiExamplePrefix := Some("ณอ"), thaiExampleDescription := Some("เณร"),
      romanTransliterationPrefix := Some("naw"), romanTransliteration := Some("naan"),
      romanDescription := Some("Novice monk")),
    Letter("ม", 35, letterType := Some(Consonant), consonantGroup := Some(Low),
      imageSrc := Some("/maw-maa.webp"), thaiExamplePrefix := Some("มอ"), thaiExampleDescription := Some("ม้า"),
      romanTransliterationPrefix := Some("maw"), romanTransliteration := Some("maa"),
      romanDescription := Some("Horse")),
    Letter("ย", 36, letterType := Some(Consonant), consonantGroup := Some(Low),
      imageSrc := Some("/yaw-yuk.webp"), thaiExamplePrefix := Some("ยอ"), thaiExampleDescription := Some("ยักษ์"),
      romanTransliterationPrefix := Some("yaw"), romanTransliteration := Some("yuk"),
      romanDescription := Some("Giant")),
    Letter("ญ", 37, letterType := Some(Consonant), consonantGroup := Some(Low),
      imageSrc := Some("/yaw-ying.webp"), thaiExamplePrefix := Some("ญอ"), thaiExampleDescription := Some("หญิง"),
      romanTransliterationPrefix := Some("yaw"), romanTransliteration := Some("ying"),
      romanDescription := Some("Woman")),
    Letter("ร", 38, letterType := Some(Consonant), consonantGroup := Some(Low),
      imageSrc := Some("/raw-rua.webp"), thaiExamplePrefix := Some("รอ"), thaiExampleDescription := Some("เรือ"),
      romanTransliterationPrefix := Some("raw"), romanTransliteration := Some("rua"),
      romanDescription := Some("Boat")),
    Letter("ล", 39, letterType := Some(Consonant), consonantGroup := Some(Low),
      imageSrc := Some("/law-ling.webp"), thaiExamplePrefix := Some("ลอ"), thaiExampleDescription := Some("ลิง"),
      romanTransliterationPrefix := Some("law"), romanTransliteration := Some("ling"),
      romanDescription := Some("Monkey")),
    Letter("ฬ", 40, letterType := Some(Consonant), consonantGroup := Some(Low),
      imageSrc := Some("/law-julaa.webp"), thaiExamplePrefix := Some("ฬอ"), thaiExampleDescription := Some("จุฬา"),
      romanTransliterationPrefix := Some("law"), romanTransliteration := Some("julaa"),
      romanDescription := Some("Kite")),
    Letter("ว", 41, letterType := Some(Consonant), consonantGroup := Some(Low),
      imageSrc := Some("/waw-waen.webp"), thaiExamplePrefix := Some("วอ"), thaiExampleDescription := Some("แหวน"),
      romanTransliterationPrefix := Some("waw"), romanTransliteration := Some("waen"),
      romanDescription := Some("Ring"))
  ]

  lemma OrdersAreSequentialFrom0()
    ensures forall i | 0 <= i < 14 :: Catalogue[i].order == i + 1
  {
  }

  lemma OrdersAreSequentialFrom14()
    ensures forall i | 14 <= i < 28 :: Catalogue[i].order == i + 1
  {
  }

  lemma OrdersAreSequentialFrom28()
    ensures forall i | 28 <= i < 41 :: Catalogue[i].order == i + 1
  {
  }

  /** The catalogue holds 41 entries and the entry at index i has order i + 1. */
  lemma OrdersAreSequential()
    ensures |Catalogue| == 41
    ensures forall i | 0 <= i < |Catalogue| :: Catalogue[i].order == i + 1
  {
    OrdersAreSequentialFrom0();
    OrdersAreSequentialFrom14();
    OrdersAreSequentialFrom28();
  }

  lemma ConsonantClassesFrom0()
    ensures forall i | 0 <= i < 14 :: 
      && Catalogue[i].letterType == Some(Consonant)
      && Catalogue[i].consonantGroup ==
             Some(if Catalogue[i].order <= 9 then Middle else if Catalogue[i].order <= 19 then High else Low)
  {
  }

  lemma ConsonantClassesFrom14()
    ensures forall i | 14 <= i < 28 :: 
      && Catalogue[i].letterType == Some(Consonant)
      && Catalogue[i].consonantGroup ==
             Some(if Catalogue[i].order <= 9 then Middle else if Catalogue[i].order <= 19 then High else Low)
  {
  }

  lemma ConsonantClassesFrom28()
    ensures forall i | 28 <= i < 41 :: 
      && Catalogue[i].letterType == Some(Consonant)
      && Catalogue[i].consonantGroup ==
             Some(if Catalogue[i].order <= 9 then Middle else if Catalogue[i].order <= 19 then High else Low)
  {
  }

  /** Every entry has type Consonant and the class by order range. */
  lemma ConsonantClasses()
    ensures forall i | 0 <= i < |Catalogue| :: 
      && Catalogue[i].letterType == Some(Consonant)
      && Catalogue[i].consonantGroup ==
             Some(if Catalogue[i].order <= 9 then Middle else if Catalogue[i].order <= 19 then High else Low)
  {
    ConsonantClassesFrom0();
    ConsonantClassesFrom14();
    ConsonantClassesFrom28();
  }

  lemma SymbolsAreCharsFrom0()
    ensures forall i | 0 <= i < 14 :: Catalogue[i].symbol == [ThaiSymbols.SymbolChars[i]]
  {
  }

  lemma SymbolsAreCharsFrom14()
    ensures forall i | 14 <= i < 28 :: Catalogue[i].symbol == [ThaiSymbols.SymbolChars[i]]
  {
  }

  lemma SymbolsAreCharsFrom28()
    ensures forall i | 28 <= i < 41 :: Catalogue[i].symbol == [ThaiSymbols.SymbolChars[i]]
  {
  }

  /** Each symbol is the single character listed at its index. */
  lemma SymbolsAreChars()
    ensures |ThaiSymbols.SymbolChars| == |Catalogue|
    ensures forall i | 0 <= i < |Catalogue| :: Catalogue[i].symbol == [ThaiSymbols.SymbolChars[i]]
  {
    SymbolsAreCharsFrom0();
    SymbolsAreCharsFrom14();
    SymbolsAreCharsFrom28();
  }

  /** The symbols are those of the older catalogue, in the same order. */
  lemma {:induction false} SymbolsMatchThaiAlphabet()
    ensures |Catalogue| == |ThaiAlphabet.Catalogue|
    ensures forall i | 0 <= i < |Catalogue| :: Catalogue[i].symbol == ThaiAlphabet.Catalogue[i].symbol
  {
    SymbolsAreChars();
    ThaiAlphabet.SymbolsAreChars();
  }

  /** No two entries share a symbol. */
  lemma {:induction false} SymbolsDistinct()
    ensures DistinctSymbols(Catalogue)
  {
    SymbolsMatchThaiAlphabet();
    ThaiAlphabet.SymbolsDistinct();
  }

  lemma ExamplePrefixesListedFrom0()
    ensures forall i | 0 <= i < 14 :: Catalogue[i].thaiExamplePrefix == Some([ThaiSymbols.SymbolChars[i], 'อ'])
  {
  }

  lemma ExamplePrefixesListedFrom14()
    ensures forall i | 14 <= i < 28 :: Catalogue[i].thaiExamplePrefix == Some([ThaiSymbols.SymbolChars[i], 'อ'])
  {
  }

  lemma ExamplePrefixesListedFrom28()
    ensures forall i | 28 <= i < 41 :: Catalogue[i].thaiExamplePrefix == Some([ThaiSymbols.SymbolChars[i], 'อ'])
  {
  }

  /** Each example prefix is the listed character followed by 'อ'. */
  lemma ExamplePrefixesListed()
    ensures |ThaiSymbols.SymbolChars| == |Catalogue|
    ensures forall i | 0 <= i < |Catalogue| :: Catalogue[i].thaiExamplePrefix == Some([ThaiSymbols.SymbolChars[i], 'อ'])
  {
    ExamplePrefixesListedFrom0();
    ExamplePrefixesListedFrom14();
    ExamplePrefixesListedFrom28();
  }

  /** The Thai example prefix is the consonant followed by 'อ'. */
  lemma {:induction false} ExamplePrefixes()
    ensures forall i | 0 <= i < |Catalogue| ::
      Catalogue[i].thaiExamplePrefix == Some(Catalogue[i].symbol + "อ")
  {
    SymbolsAreChars();
    ExamplePrefixesListed();
    forall i | 0 <= i < |Catalogue|
      ensures Catalogue[i].thaiExamplePrefix == Some(Catalogue[i].symbol + "อ")
    {
      assert [ThaiSymbols.SymbolChars[i]] + "อ" == [ThaiSymbols.SymbolChars[i], 'อ'];
    }
  }

  lemma NamesListedFrom0()
    ensures forall i | 0 <= i < 14 :: 
      && Catalogue[i].romanTransliterationPrefix == Some(ConsonantImages.Prefixes[i])
      && Catalogue[i].romanTransliteration == Some(ConsonantImages.Transliterations[i])
      && Catalogue[i].imageSrc == Some(ConsonantImages.Images[i])
  {
  }

  lemma NamesListedFrom14()
    ensures forall i | 14 <= i < 28 :: 
      && Catalogue[i].romanTransliterationPrefix == Some(ConsonantImages.Prefixes[i])
      && Catalogue[i].romanTransliteration == Some(ConsonantImages.Transliterations[i])
      && Catalogue[i].imageSrc == Some(ConsonantImages.Images[i])
  {
  }

  lemma NamesListedFrom28()
    ensures forall i | 28 <= i < 41 :: 
      && Catalogue[i].romanTransliterationPrefix == Some(ConsonantImages.Prefixes[i])
      && Catalogue[i].romanTransliteration == Some(ConsonantImages.Transliterations[i])
      && Catalogue[i].imageSrc == Some(ConsonantImages.Images[i])
  {
  }

  /** The transliteration fields and images are those listed in `ConsonantImages`. */
  lemma NamesListed()
    ensures |ConsonantImages.Prefixes| == |ConsonantImages.Transliterations| == |ConsonantImages.Images| == |Catalogue|
    ensures forall i | 0 <= i < |Catalogue| :: 
      && Catalogue[i].romanTransliterationPrefix == Some(ConsonantImages.Prefixes[i])
      && Catalogue[i].romanTransliteration == Some(ConsonantImages.Transliterations[i])
      && Catalogue[i].imageSrc == Some(ConsonantImages.Images[i])
  {
    NamesListedFrom0();
    NamesListedFrom14();
    NamesListedFrom28();
  }

  /** Each image is "/" + prefix + "-" + transliteration with spaces hyphenated + ".webp". */
  lemma {:induction false} ImageNames()
    ensures forall i | 0 <= i < |Catalogue| ::
      && Catalogue[i].romanTransliterationPrefix.Some?
      && Catalogue[i].romanTransliteration.Some?
      && Catalogue[i].imageSrc == Some(ConsonantImages.ImageFileName(
           Catalogue[i].romanTransliterationPrefix.value, Catalogue[i].romanTransliteration.value))
  {
    NamesListed();
    forall i | 0 <= i < |Catalogue|
      ensures Catalogue[i].imageSrc == Some(ConsonantImages.ImageFileName(
                Catalogue[i].romanTransliterationPrefix.value, Catalogue[i].romanTransliteration.value))
    {
      ConsonantImages.ImageNameAt(i);
    }
  }

  /** Unlike the older catalogue, no two entries share an image. */
  lemma {:induction false} ImagesDistinct()
    ensures forall i, j | 0 <= i < j < |Catalogue| :: Catalogue[i].imageSrc != Catalogue[j].imageSrc
  {
    NamesListed();
    ConsonantImages.ImagesDistinct();
  }
}
