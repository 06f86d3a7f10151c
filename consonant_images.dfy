/** The image names of the typed consonant catalogue (src/app/utils/thaiAlphabet/consonants.ts)
    and their naming convention, kept apart from the catalogue itself so that each string
    comparison stays small for the solver. */
module ConsonantImages {
  /** `romanTransliterationPrefix` of each entry, in catalogue order. */
  const Prefixes: seq<string> := [
    "gaw", "jauw", "daw", "daw", "daw", "daw",
    "baw", "baw", "aw", "kaw", "chaw", "taw",
    "taw", "paw", "faw", "saw", "saw", "saw",
    "haw", "khaw", "kaw", "chaw", "chaw", "taw",
    "taw", "taw", "phaw", "phaw", "faw", "saw",
    "hoo", "ngaw", "naw", "naw", "maw", "yaw",
    "yaw", "raw", "law", "law", "waw"]

  /** `romanTransliteration` of each entry, in catalogue order. */
  const Transliterations: seq<string> := [
    "gai", "jaan", "dek", "chada", "dtao", "padak",
    "bai mai", "bplaa", "ang", "khai", "ching", "tung",
    "taan", "phung", "faa", "sala", "ruusii", "suaa",
    "heap", "khwai", "rakang", "chaang", "cheur", "thahaan",
    "thong", "putow", "phaan", "samphao", "fun", "soo",
    "nok hook", "ngu", "nuu", "naan", "maa", "yuk",
    "ying", "rua", "ling", "julaa", "waen"]

  /** `imageSrc` of each entry, in catalogue order. */
  const Images: seq<string> := [
    "/gaw-gai.webp", "/jauw-jaan.webp", "/daw-dek.webp", "/daw-chada.webp", "/daw-dtao.webp", "/daw-padak.webp",
    "/baw-bai-mai.webp", "/baw-bplaa.webp", "/aw-ang.webp", "/kaw-khai.webp", "/chaw-ching.webp", "/taw-tung.webp",
    "/taw-taan.webp", "/paw-phung.webp", "/faw-faa.webp", "/saw-sala.webp", "/saw-ruusii.webp", "/saw-suaa.webp",
    "/haw-heap.webp", "/khaw-khwai.webp", "/kaw-rakang.webp", "/chaw-chaang.webp", "/chaw-cheur.webp", "/taw-thahaan.webp",
    "/taw-thong.webp", "/taw-putow.webp", "/phaw-phaan.webp", "/phaw-samphao.webp", "/faw-fun.webp", "/saw-soo.webp",
    "/hoo-nok-hook.webp", "/ngaw-ngu.webp", "/naw-nuu.webp", "/naw-naan.webp", "/maw-maa.webp", "/yaw-yuk.webp",
    "/yaw-ying.webp", "/raw-rua.webp", "/law-ling.webp", "/law-julaa.webp", "/waw-waen.webp"]

  /** Spaces of a transliteration become hyphens in a file name. */
  function Hyphenate(s: string): (r: string)
    ensures |r| == |s|
    ensures forall k | 0 <= k < |s| :: r[k] == if s[k] == ' ' then '-' else s[k]
  {
    seq(|s|, k requires 0 <= k < |s| => if s[k] == ' ' then '-' else s[k])
  }

  /** The image path the convention gives a prefix and a transliteration. */
  function ImageFileName(prefix: string, transliteration: string): string {
    "/" + prefix + "-" + Hyphenate(transliteration) + ".webp"
  }

  lemma ImageNameAtFrom0(i: int)
    requires 0 <= i < 2
    ensures Images[i] == ImageFileName(Prefixes[i], Transliterations[i])
  {
    if i == 0 { assert Hyphenate("gai") == "gai"; }
    else if i == 1 { assert Hyphenate("jaan") == "jaan"; }
  }

  lemma ImageNameAtFrom2(i: int)
    requires 2 <= i < 4
    ensures Images[i] == ImageFileName(Prefixes[i], Transliterations[i])
  {
    if i == 2 { assert Hyphenate("dek") == "dek"; }
    else if i == 3 { assert Hyphenate("chada") == "chada"; }
  }

  lemma ImageNameAtFrom4(i: int)
    requires 4 <= i < 6
    ensures Images[i] == ImageFileName(Prefixes[i], Transliterations[i])
  {
    if i == 4 { assert Hyphenate("dtao") == "dtao"; }
    else if i == 5 { assert Hyphenate("padak") == "padak"; }
  }

  lemma ImageNameAtFrom6(i: int)
    requires 6 <= i < 8
    ensures Images[i] == ImageFileName(Prefixes[i], Transliterations[i])
  {
    if i == 6 { assert Hyphenate("bai mai") == "bai-mai"; }
    else if i == 7 { assert Hyphenate("bplaa") == "bplaa"; }
  }

  lemma ImageNameAtFrom8(i: int)
    requires 8 <= i < 10
    ensures Images[i] == ImageFileName(Prefixes[i], Transliterations[i])
  {
    if i == 8 { assert Hyphenate("ang") == "ang"; }
    else if i == 9 { assert Hyphenate("khai") == "khai"; }
  }

  lemma ImageNameAtFrom10(i: int)
    requires 10 <= i < 12
    ensures Images[i] == ImageFileName(Prefixes[i], Transliterations[i])
  {
    if i == 10 { assert Hyphenate("ching") == "ching"; }
    else if i == 11 { assert Hyphenate("tung") == "tung"; }
  }

  lemma ImageNameAtFrom12(i: int)
    requires 12 <= i < 14
    ensures Images[i] == ImageFileName(Prefixes[i], Transliterations[i])
  {
    if i == 12 { assert Hyphenate("taan") == "taan"; }
    else if i == 13 { assert Hyphenate("phung") == "phung"; }
  }

  lemma ImageNameAtFrom14(i: int)
    requires 14 <= i < 16
    ensures Images[i] == ImageFileName(Prefixes[i], Transliterations[i])
  {
    if i == 14 { assert Hyphenate("faa") == "faa"; }
    else if i == 15 { assert Hyphenate("sala") == "sala"; }
  }

  lemma ImageNameAtFrom16(i: int)
    requires 16 <= i < 18
    ensures Images[i] == ImageFileName(Prefixes[i], Transliterations[i])
  {
    if i == 16 { assert Hyphenate("ruusii") == "ruusii"; }
    else if i == 17 { assert Hyphenate("suaa") == "suaa"; }
  }

  lemma ImageNameAtFrom18(i: int)
    requires 18 <= i < 20
    ensures Images[i] == ImageFileName(Prefixes[i], Transliterations[i])
  {
    if i == 18 { assert Hyphenate("heap") == "heap"; }
    else if i == 19 { assert Hyphenate("khwai") == "khwai"; }
  }

  lemma ImageNameAtFrom20(i: int)
    requires 20 <= i < 22
    ensures Images[i] == ImageFileName(Prefixes[i], Transliterations[i])
  {
    if i == 20 { assert Hyphenate("rakang") == "rakang"; }
    else if i == 21 { assert Hyphenate("chaang") == "chaang"; }
  }

  lemma ImageNameAtFrom22(i: int)
    requires 22 <= i < 24
    ensures Images[i] == ImageFileName(Prefixes[i], Transliterations[i])
  {
    if i == 22 { assert Hyphenate("cheur") == "cheur"; }
    else if i == 23 { assert Hyphenate("thahaan") == "thahaan"; }
  }

  lemma ImageNameAtFrom24(i: int)
    requires 24 <= i < 26
    ensures Images[i] == ImageFileName(Prefixes[i], Transliterations[i])
  {
    if i == 24 { assert Hyphenate("thong") == "thong"; }
    else if i == 25 { assert Hyphenate("putow") == "putow"; }
  }

  lemma ImageNameAtFrom26(i: int)
    requires 26 <= i < 28
    ensures Images[i] == ImageFileName(Prefixes[i], Transliterations[i])
  {
    if i == 26 { assert Hyphenate("phaan") == "phaan"; }
    else if i == 27 { assert Hyphenate("samphao") == "samphao"; }
  }

  lemma ImageNameAtFrom28(i: int)
    requires 28 <= i < 30
    ensures Images[i] == ImageFileName(Prefixes[i], Transliterations[i])
  {
    if i == 28 { assert Hyphenate("fun") == "fun"; }
    else if i == 29 { assert Hyphenate("soo") == "soo"; }
  }

  lemma ImageNameAtFrom30(i: int)
    requires 30 <= i < 32
    ensures Images[i] == ImageFileName(Prefixes[i], Transliterations[i])
  {
    if i == 30 { assert Hyphenate("nok hook") == "nok-hook"; }
    else if i == 31 { assert Hyphenate("ngu") == "ngu"; }
  }

  lemma ImageNameAtFrom32(i: int)
    requires 32 <= i < 34
    ensures Images[i] == ImageFileName(Prefixes[i], Transliterations[i])
  {
    if i == 32 { assert Hyphenate("nuu") == "nuu"; }
    else if i == 33 { assert Hyphenate("naan") == "naan"; }
  }

  lemma ImageNameAtFrom34(i: int)
    requires 34 <= i < 36
    ensures Images[i] == ImageFileName(Prefixes[i], Transliterations[i])
  {
    if i == 34 { assert Hyphenate("maa") == "maa"; }
    else if i == 35 { assert Hyphenate("yuk") == "yuk"; }
  }

  lemma ImageNameAtFrom36(i: int)
    requires 36 <= i < 38
    ensures Images[i] == ImageFileName(Prefixes[i], Transliterations[i])
  {
    if i == 36 { assert Hyphenate("ying") == "ying"; }
    else if i == 37 { assert Hyphenate("rua") == "rua"; }
  }

  lemma ImageNameAtFrom38(i: int)
    requires 38 <= i < 40
    ensures Images[i] == ImageFileName(Prefixes[i], Transliterations[i])
  {
    if i == 38 { assert Hyphenate("ling") == "ling"; }
    else if i == 39 { assert Hyphenate("julaa") == "julaa"; }
  }

  lemma ImageNameAtFrom40(i: int)
    requires 40 <= i < 41
    ensures Images[i] == ImageFileName(Prefixes[i], Transliterations[i])
  {
    if i == 40 { assert Hyphenate("waen") == "waen"; }
  }

  /** Every image follows the convention. */
  lemma ImageNameAt(i: int)
    requires 0 <= i < 41
    ensures Images[i] == ImageFileName(Prefixes[i], Transliterations[i])
  {
    if i < 2 { ImageNameAtFrom0(i); }
    else if i < 4 { ImageNameAtFrom2(i); }
    else if i < 6 { ImageNameAtFrom4(i); }
    else if i < 8 { ImageNameAtFrom6(i); }
    else if i < 10 { ImageNameAtFrom8(i); }
    else if i < 12 { ImageNameAtFrom10(i); }
    else if i < 14 { ImageNameAtFrom12(i); }
    else if i < 16 { ImageNameAtFrom14(i); }
    else if i < 18 { ImageNameAtFrom16(i); }
    else if i < 20 { ImageNameAtFrom18(i); }
    else if i < 22 { ImageNameAtFrom20(i); }
    else if i < 24 { ImageNameAtFrom22(i); }
    else if i < 26 { ImageNameAtFrom24(i); }
    else if i < 28 { ImageNameAtFrom26(i); }
    else if i < 30 { ImageNameAtFrom28(i); }
    else if i < 32 { ImageNameAtFrom30(i); }
    else if i < 34 { ImageNameAtFrom32(i); }
    else if i < 36 { ImageNameAtFrom34(i); }
    else if i < 38 { ImageNameAtFrom36(i); }
    else if i < 40 { ImageNameAtFrom38(i); }
    else { ImageNameAtFrom40(i); }
  }

  /** The index of the entry whose image is `s`, or -1. */
  function ImagePosition(s: string): int {
    if s == "/gaw-gai.webp" then 0
    else if s == "/jauw-jaan.webp" then 1
    else if s == "/daw-dek.webp" then 2
    else if s == "/daw-chada.webp" then 3
    else if s == "/daw-dtao.webp" then 4
    else if s == "/daw-padak.webp" then 5
    else if s == "/baw-bai-mai.webp" then 6
    else if s == "/baw-bplaa.webp" then 7
    else if s == "/aw-ang.webp" then 8
    else if s == "/kaw-khai.webp" then 9
    else if s == "/chaw-ching.webp" then 10
    else if s == "/taw-tung.webp" then 11
    else if s == "/taw-taan.webp" then 12
    else if s == "/paw-phung.webp" then 13
    else if s == "/faw-faa.webp" then 14
    else if s == "/saw-sala.webp" then 15
    else if s == "/saw-ruusii.webp" then 16
    else if s == "/saw-suaa.webp" then 17
    else if s == "/haw-heap.webp" then 18
    else if s == "/khaw-khwai.webp" then 19
    else if s == "/kaw-rakang.webp" then 20
    else if s == "/chaw-chaang.webp" then 21
    else if s == "/chaw-cheur.webp" then 22
    else if s == "/taw-thahaan.webp" then 23
    else if s == "/taw-thong.webp" then 24
    else if s == "/taw-putow.webp" then 25
    else if s == "/phaw-phaan.webp" then 26
    else if s == "/phaw-samphao.webp" then 27
    else if s == "/faw-fun.webp" then 28
    else if s == "/saw-soo.webp" then 29
    else if s == "/hoo-nok-hook.webp" then 30
    else if s == "/ngaw-ngu.webp" then 31
    else if s == "/naw-nuu.webp" then 32
    else if s == "/naw-naan.webp" then 33
    else if s == "/maw-maa.webp" then 34
    else if s == "/yaw-yuk.webp" then 35
    else if s == "/yaw-ying.webp" then 36
    else if s == "/raw-rua.webp" then 37
    else if s == "/law-ling.webp" then 38
    else if s == "/law-julaa.webp" then 39
    else if s == "/waw-waen.webp" then 40
    else -1
  }

  lemma ImagePositionAtFrom0(i: int)
    requires 0 <= i < 3
    ensures ImagePosition(Images[i]) == i
  {
    if i == 0 { assert Images[0] == "/gaw-gai.webp"; }
    else if i == 1 { assert Images[1] == "/jauw-jaan.webp"; }
    else if i == 2 { assert Images[2] == "/daw-dek.webp"; }
  }

  lemma ImagePositionAtFrom3(i: int)
    requires 3 <= i < 6
    ensures ImagePosition(Images[i]) == i
  {
    if i == 3 { assert Images[3] == "/daw-chada.webp"; }
    else if i == 4 { assert Images[4] == "/daw-dtao.webp"; }
    else if i == 5 { assert Images[5] == "/daw-padak.webp"; }
  }

  lemma ImagePositionAtFrom6(i: int)
    requires 6 <= i < 9
    ensures ImagePosition(Images[i]) == i
  {
    if i == 6 { assert Images[6] == "/baw-bai-mai.webp"; }
    else if i == 7 { assert Images[7] == "/baw-bplaa.webp"; }
    else if i == 8 { assert Images[8] == "/aw-ang.webp"; }
  }

  lemma ImagePositionAtFrom9(i: int)
    requires 9 <= i < 12
    ensures ImagePosition(Images[i]) == i
  {
    if i == 9 { assert Images[9] == "/kaw-khai.webp"; }
    else if i == 10 { assert Images[10] == "/chaw-ching.webp"; }
    else if i == 11 { assert Images[11] == "/taw-tung.webp"; }
  }

  lemma ImagePositionAtFrom12(i: int)
    requires 12 <= i < 15
    ensures ImagePosition(Images[i]) == i
  {
    if i == 12 { assert Images[12] == "/taw-taan.webp"; }
    else if i == 13 { assert Images[13] == "/paw-phung.webp"; }
    else if i == 14 { assert Images[14] == "/faw-faa.webp"; }
  }

  lemma ImagePositionAtFrom15(i: int)
    requires 15 <= i < 18
    ensures ImagePosition(Images[i]) == i
  {
    if i == 15 { assert Images[15] == "/saw-sala.webp"; }
    else if i == 16 { assert Images[16] == "/saw-ruusii.webp"; }
    else if i == 17 { assert Images[17] == "/saw-suaa.webp"; }
  }

  lemma ImagePositionAtFrom18(i: int)
    requires 18 <= i < 21
    ensures ImagePosition(Images[i]) == i
  {
    if i == 18 { assert Images[18] == "/haw-heap.webp"; }
    else if i == 19 { assert Images[19] == "/khaw-khwai.webp"; }
    else if i == 20 { assert Images[20] == "/kaw-rakang.webp"; }
  }

  lemma ImagePositionAtFrom21(i: int)
    requires 21 <= i < 24
    ensures ImagePosition(Images[i]) == i
  {
    if i == 21 { assert Images[21] == "/chaw-chaang.webp"; }
    else if i == 22 { assert Images[22] == "/chaw-cheur.webp"; }
    else if i == 23 { assert Images[23] == "/taw-thahaan.webp"; }
  }

  lemma ImagePositionAtFrom24(i: int)
    requires 24 <= i < 27
    ensures ImagePosition(Images[i]) == i
  {
    if i == 24 { assert Images[24] == "/taw-thong.webp"; }
    else if i == 25 { assert Images[25] == "/taw-putow.webp"; }
    else if i == 26 { assert Images[26] == "/phaw-phaan.webp"; }
  }

  lemma ImagePositionAtFrom27(i: int)
    requires 27 <= i < 30
    ensures ImagePosition(Images[i]) == i
  {
    if i == 27 { assert Images[27] == "/phaw-samphao.webp"; }
    else if i == 28 { assert Images[28] == "/faw-fun.webp"; }
    else if i == 29 { assert Images[29] == "/saw-soo.webp"; }
  }

  lemma ImagePositionAtFrom30(i: int)
    requires 30 <= i < 33
    ensures ImagePosition(Images[i]) == i
  {
    if i == 30 { assert Images[30] == "/hoo-nok-hook.webp"; }
    else if i == 31 { assert Images[31] == "/ngaw-ngu.webp"; }
    else if i == 32 { assert Images[32] == "/naw-nuu.webp"; }
  }

  lemma ImagePositionAtFrom33(i: int)
    requires 33 <= i < 36
    ensures ImagePosition(Images[i]) == i
  {
    if i == 33 { assert Images[33] == "/naw-naan.webp"; }
    else if i == 34 { assert Images[34] == "/maw-maa.webp"; }
    else if i == 35 { assert Images[35] == "/yaw-yuk.webp"; }
  }

  lemma ImagePositionAtFrom36(i: int)
    requires 36 <= i < 39
    ensures ImagePosition(Images[i]) == i
  {
    if i == 36 { assert Images[36] == "/yaw-ying.webp"; }
    else if i == 37 { assert Images[37] == "/raw-rua.webp"; }
    else if i == 38 { assert Images[38] == "/law-ling.webp"; }
  }

  lemma ImagePositionAtFrom39(i: int)
    requires 39 <= i < 41
    ensures ImagePosition(Images[i]) == i
  {
    if i == 39 { assert Images[39] == "/law-julaa.webp"; }
    else if i == 40 { assert Images[40] == "/waw-waen.webp"; }
  }

  /** `ImagePosition` inverts the list. */
  lemma ImagePositionAt(i: int)
    requires 0 <= i < 41
    ensures ImagePosition(Images[i]) == i
  {
    if i < 3 { ImagePositionAtFrom0(i); }
    else if i < 6 { ImagePositionAtFrom3(i); }
    else if i < 9 { ImagePositionAtFrom6(i); }
    else if i < 12 { ImagePositionAtFrom9(i); }
    else if i < 15 { ImagePositionAtFrom12(i); }
    else if i < 18 { ImagePositionAtFrom15(i); }
    else if i < 21 { ImagePositionAtFrom18(i); }
    else if i < 24 { ImagePositionAtFrom21(i); }
    else if i < 27 { ImagePositionAtFrom24(i); }
    else if i < 30 { ImagePositionAtFrom27(i); }
    else if i < 33 { ImagePositionAtFrom30(i); }
    else if i < 36 { ImagePositionAtFrom33(i); }
    else if i < 39 { ImagePositionAtFrom36(i); }
    else { ImagePositionAtFrom39(i); }
  }

  /** No image occurs twice in the list. */
  lemma ImagesDistinct()
    ensures |Images| == 41
    ensures forall i, j | 0 <= i < j < |Images| :: Images[i] != Images[j]
  {
    forall i, j | 0 <= i < j < |Images| ensures Images[i] != Images[j] {
      ImagePositionAt(i);
      ImagePositionAt(j);
    }
  }
}
