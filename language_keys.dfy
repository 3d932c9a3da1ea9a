/** The per-language key tables and the language router. Every table is
    transcribed from the source: rows of keys, each key a glyph and its
    long-press variants. */
module LanguageKeys {
  import opened Platform

  /** A key: the glyph it types and its long-press variants, which default to
      none when omitted. */
  datatype KeyModel = KeyModel(main: string, popup: seq<string> := [])

  // Long-press vowel signs per script, matras first

  // AllLanguageKeys.swift:27
  const DevanagariMatras: seq<string> := ["ा", "ि", "ी", "ु", "ू", "ृ", "ॄ", "े", "ै", "ो", "ौ", "ं", "ः", "ँ", "्"]
  // AllLanguageKeys.swift:28
  const TeluguMatras: seq<string> := ["ా", "ి", "ీ", "ు", "ూ", "ృ", "ౄ", "ె", "ే", "ై", "ొ", "ో", "ౌ", "్"]
  // AllLanguageKeys.swift:29
  const TamilMatras: seq<string> := ["ா", "ி", "ೀ", "ு", "ூ", "ெ", "ே", "ை", "ொ", "ோ", "ௌ", "்"]
  // AllLanguageKeys.swift:30
  const KannadaMatras: seq<string> := ["ಾ", "ಿ", "ೀ", "ು", "ೂ", "ೃ", "ೄ", "ೆ", "ೇ", "ೈ", "ೊ", "ೋ", "ೌ", "್"]
  // AllLanguageKeys.swift:31
  const MalayalamMatras: seq<string> := ["ാ", "ി", "ീ", "ു", "ൂ", "ൃ", "ൄ", "െ", "േ", "ൈ", "ൊ", "ോ", "ൗ", "്"]
  // AllLanguageKeys.swift:32
  const OdiaMatras: seq<string> := ["ା", "ି", "ୀ", "ୁ", "ୂ", "ୃ", "େ", "ୈ", "ୋ", "ୌ", "ଂ", "ଃ", "୍"]
  // AllLanguageKeys.swift:33
  const BengaliMatras: seq<string> := ["া", "ি", "ী", "ু", "ূ", "ৃ", "ে", "ৈ", "ো", "ৌ", "ঁ", "ঃ", "্"]
  // AllLanguageKeys.swift:34
  const GujaratiMatras: seq<string> := ["ા", "િ", "ી", "ુ", "ૂ", "ૃ", "ૄ", "ે", "ૈ", "ો", "ૌ", "ં", "ઃ", "્"]
  // AllLanguageKeys.swift:35
  const GurmukhiMatras: seq<string> := ["ਾ", "ਿ", "ੀ", "ੁ", "ੂ", "ੇ", "ੈ", "ੋ", "ੌ", "ਂ", "ੰ", "੍"]

  // AllLanguageKeys.swift:231-238
  const EnglishPopups: map<string, seq<string>> := map[
    "A" := ["À", "Á", "Â", "Ã", "Ä", "Å", "Æ"],
    "E" := ["È", "É", "Ê", "Ë"],
    "I" := ["Ì", "Í", "Î", "Ï"],
    "O" := ["Ò", "Ó", "Ô", "Õ", "Ö", "Ø"],
    "U" := ["Ù", "Ú", "Û", "Ü"],
    "C" := ["Ç"],
    "N" := ["Ñ"],
    "Y" := ["Ý"]
  ]

  // AllLanguageKeys.swift:38-74
  const HindiKeys: seq<seq<KeyModel>> := [
    [KeyModel("अ", ["आ"]), KeyModel("आ"), KeyModel("इ", ["ई"]), KeyModel("ई"), KeyModel("उ", ["ऊ"]),
     KeyModel("ऊ"), KeyModel("ऋ", ["ॠ"]), KeyModel("ॠ"), KeyModel("ऌ"), KeyModel("ए")],
    [KeyModel("ऐ"), KeyModel("ओ", ["औ"]), KeyModel("औ"), KeyModel("अं"), KeyModel("अः")],
    [KeyModel("क", DevanagariMatras + ["क़"]), KeyModel("ख", DevanagariMatras + ["ख़"]),
     KeyModel("ग", DevanagariMatras + ["ग़"]), KeyModel("घ", DevanagariMatras),
     KeyModel("ङ", DevanagariMatras), KeyModel("च", DevanagariMatras), KeyModel("छ", DevanagariMatras),
     KeyModel("ज", DevanagariMatras + ["ज़"]), KeyModel("झ", DevanagariMatras),
     KeyModel("ञ", DevanagariMatras)],
    [KeyModel("ट", DevanagariMatras), KeyModel("ठ", DevanagariMatras),
     KeyModel("ड", DevanagariMatras + ["ड़"]), KeyModel("ढ", DevanagariMatras + ["ढ़"]),
     KeyModel("ण", DevanagariMatras), KeyModel("त", DevanagariMatras), KeyModel("थ", DevanagariMatras),
     KeyModel("द", DevanagariMatras), KeyModel("ध", DevanagariMatras), KeyModel("न", DevanagariMatras)],
    [KeyModel("प", DevanagariMatras), KeyModel("फ", DevanagariMatras + ["फ़"]),
     KeyModel("ब", DevanagariMatras), KeyModel("भ", DevanagariMatras), KeyModel("म", DevanagariMatras),
     KeyModel("य", DevanagariMatras), KeyModel("र", DevanagariMatras), KeyModel("ल", DevanagariMatras),
     KeyModel("व", DevanagariMatras), KeyModel("श", DevanagariMatras)],
    [KeyModel("ष", DevanagariMatras), KeyModel("स", DevanagariMatras), KeyModel("ह", DevanagariMatras),
     KeyModel("ळ", DevanagariMatras), KeyModel("क्ष", DevanagariMatras), KeyModel("त्र", DevanagariMatras),
     KeyModel("ज्ञ", DevanagariMatras), KeyModel("श्र", DevanagariMatras), KeyModel("ॐ"), KeyModel("ऍ"),
     KeyModel("ऑ"), KeyModel("ऎ"), KeyModel("ऒ")],
    [KeyModel("ा"), KeyModel("ि"), KeyModel("ी"), KeyModel("ु"), KeyModel("ू"), KeyModel("ृ"), KeyModel("े"),
     KeyModel("ै"), KeyModel("ो"), KeyModel("ौ"), KeyModel("्")]
  ]

  // AllLanguageKeys.swift:80-95
  const TeluguKeys: seq<seq<KeyModel>> := [
    [KeyModel("అ"), KeyModel("ఆ"), KeyModel("ఇ"), KeyModel("ఈ"), KeyModel("ఉ"), KeyModel("ఊ"), KeyModel("ఋ"),
     KeyModel("ౠ"), KeyModel("ఎ"), KeyModel("ఏ")],
    [KeyModel("ఐ"), KeyModel("ఒ"), KeyModel("ఓ"), KeyModel("ఔ"), KeyModel("అం"), KeyModel("అః")],
    [KeyModel("క", TeluguMatras), KeyModel("ఖ", TeluguMatras), KeyModel("గ", TeluguMatras),
     KeyModel("ఘ", TeluguMatras), KeyModel("ఙ", TeluguMatras), KeyModel("చ", TeluguMatras),
     KeyModel("ఛ", TeluguMatras), KeyModel("జ", TeluguMatras), KeyModel("ఝ", TeluguMatras),
     KeyModel("ఞ", TeluguMatras)],
    [KeyModel("ట", TeluguMatras), KeyModel("ఠ", TeluguMatras), KeyModel("డ", TeluguMatras),
     KeyModel("ఢ", TeluguMatras), KeyModel("ణ", TeluguMatras), KeyModel("త", TeluguMatras),
     KeyModel("థ", TeluguMatras), KeyModel("ద", TeluguMatras), KeyModel("ధ", TeluguMatras),
     KeyModel("న", TeluguMatras)],
    [KeyModel("ప", TeluguMatras), KeyModel("ఫ", TeluguMatras), KeyModel("బ", TeluguMatras),
     KeyModel("భ", TeluguMatras), KeyModel("మ", TeluguMatras), KeyModel("య", TeluguMatras),
     KeyModel("ర", TeluguMatras), KeyModel("ల", TeluguMatras), KeyModel("వ", TeluguMatras),
     KeyModel("శ", TeluguMatras)],
    [KeyModel("ష", TeluguMatras), KeyModel("స", TeluguMatras), KeyModel("హ", TeluguMatras),
     KeyModel("ళ", TeluguMatras), KeyModel("క్ష", TeluguMatras), KeyModel("ఱ", TeluguMatras)]
  ]

  // AllLanguageKeys.swift:98-109
  const TamilKeys: seq<seq<KeyModel>> := [
    [KeyModel("அ"), KeyModel("ஆ"), KeyModel("இ"), KeyModel("ஈ"), KeyModel("உ"), KeyModel("ஊ"), KeyModel("எ"),
     KeyModel("ஏ"), KeyModel("ஐ"), KeyModel("ஒ")],
    [KeyModel("ஓ"), KeyModel("ஔ"), KeyModel("ஃ")],
    [KeyModel("க", TamilMatras), KeyModel("ங", TamilMatras), KeyModel("ச", TamilMatras),
     KeyModel("ஞ", TamilMatras), KeyModel("ட", TamilMatras), KeyModel("ண", TamilMatras),
     KeyModel("த", TamilMatras), KeyModel("ந", TamilMatras), KeyModel("ப", TamilMatras),
     KeyModel("ம", TamilMatras)],
    [KeyModel("ய", TamilMatras), KeyModel("ர", TamilMatras), KeyModel("ற", TamilMatras),
     KeyModel("ல", TamilMatras), KeyModel("ள", TamilMatras), KeyModel("ழ", TamilMatras),
     KeyModel("வ", TamilMatras), KeyModel("ஷ", TamilMatras), KeyModel("ஸ", TamilMatras),
     KeyModel("ஹ", TamilMatras)],
    [KeyModel("DEL")]
  ]

  // AllLanguageKeys.swift:112-127
  const KannadaKeys: seq<seq<KeyModel>> := [
    [KeyModel("ಅ"), KeyModel("ಆ"), KeyModel("ಇ"), KeyModel("ಈ"), KeyModel("ಉ"), KeyModel("ಊ"), KeyModel("ಋ"),
     KeyModel("ೠ"), KeyModel("ಎ"), KeyModel("ಏ")],
    [KeyModel("ಐ"), KeyModel("ಒ"), KeyModel("ಓ"), KeyModel("ಔ"), KeyModel("ಅಂ"), KeyModel("ಅಃ")],
    [KeyModel("ಕ", KannadaMatras), KeyModel("ಖ", KannadaMatras), KeyModel("ಗ", KannadaMatras),
     KeyModel("ಘ", KannadaMatras), KeyModel("ಙ", KannadaMatras), KeyModel("ಚ", KannadaMatras),
     KeyModel("ಛ", KannadaMatras), KeyModel("ಜ", KannadaMatras), KeyModel("ಝ", KannadaMatras),
     KeyModel("ಞ", KannadaMatras)],
    [KeyModel("ಟ", KannadaMatras), KeyModel("ಠ", KannadaMatras), KeyModel("ಡ", KannadaMatras),
     KeyModel("ಢ", KannadaMatras), KeyModel("ಣ", KannadaMatras), KeyModel("ತ", KannadaMatras),
     KeyModel("ಥ", KannadaMatras), KeyModel("ದ", KannadaMatras), KeyModel("ಧ", KannadaMatras),
     KeyModel("ನ", KannadaMatras)],
    [KeyModel("ಪ", KannadaMatras), KeyModel("ಫ", KannadaMatras), KeyModel("ಬ", KannadaMatras),
     KeyModel("ಭ", KannadaMatras), KeyModel("ಮ", KannadaMatras), KeyModel("ಯ", KannadaMatras),
     KeyModel("ರ", KannadaMatras), KeyModel("ಲ", KannadaMatras), KeyModel("ವ", KannadaMatras),
     KeyModel("ಶ", KannadaMatras)],
    [KeyModel("ಷ", KannadaMatras), KeyModel("ಸ", KannadaMatras), KeyModel("ಹ", KannadaMatras),
     KeyModel("ಳ", KannadaMatras), KeyModel("ಕ್ಷ", KannadaMatras)]
  ]

  // AllLanguageKeys.swift:130-145
  const MalayalamKeys: seq<seq<KeyModel>> := [
    [KeyModel("അ"), KeyModel("ആ"), KeyModel("ഇ"), KeyModel("ഈ"), KeyModel("ഉ"), KeyModel("ഊ"), KeyModel("ഋ"),
     KeyModel("എ"), KeyModel("ഏ"), KeyModel("ഐ")],
    [KeyModel("ഒ"), KeyModel("ഓ"), KeyModel("ഔ"), KeyModel("അം"), KeyModel("അഃ")],
    [KeyModel("ക", MalayalamMatras), KeyModel("ഖ", MalayalamMatras), KeyModel("ഗ", MalayalamMatras),
     KeyModel("ഘ", MalayalamMatras), KeyModel("ങ", MalayalamMatras), KeyModel("ച", MalayalamMatras),
     KeyModel("ഛ", MalayalamMatras), KeyModel("ജ", MalayalamMatras), KeyModel("ഝ", MalayalamMatras),
     KeyModel("ഞ", MalayalamMatras)],
    [KeyModel("ട", MalayalamMatras), KeyModel("ഠ", MalayalamMatras), KeyModel("ഡ", MalayalamMatras),
     KeyModel("ഢ", MalayalamMatras), KeyModel("ണ", MalayalamMatras), KeyModel("ത", MalayalamMatras),
     KeyModel("ഥ", MalayalamMatras), KeyModel("ദ", MalayalamMatras), KeyModel("ധ", MalayalamMatras),
     KeyModel("ന", MalayalamMatras)],
    [KeyModel("പ", MalayalamMatras), KeyModel("ഫ", MalayalamMatras), KeyModel("ബ", MalayalamMatras),
     KeyModel("ഭ", MalayalamMatras), KeyModel("മ", MalayalamMatras), KeyModel("യ", MalayalamMatras),
     KeyModel("ര", MalayalamMatras), KeyModel("ല", MalayalamMatras), KeyModel("വ", MalayalamMatras),
     KeyModel("ശ", MalayalamMatras)],
    [KeyModel("ഷ", MalayalamMatras), KeyModel("സ", MalayalamMatras), KeyModel("ഹ", MalayalamMatras),
     KeyModel("ള", MalayalamMatras), KeyModel("ഴ", MalayalamMatras), KeyModel("റ", MalayalamMatras)]
  ]

  // AllLanguageKeys.swift:148-163
  const OdiaKeys: seq<seq<KeyModel>> := [
    [KeyModel("ଅ"), KeyModel("ଆ"), KeyModel("ଇ"), KeyModel("ଈ"), KeyModel("ଉ"), KeyModel("ଊ"), KeyModel("ଋ"),
     KeyModel("ଏ"), KeyModel("ଐ"), KeyModel("ଓ")],
    [KeyModel("ଔ"), KeyModel("ଅଂ"), KeyModel("ଅଃ")],
    [KeyModel("କ", OdiaMatras), KeyModel("ଖ", OdiaMatras), KeyModel("ଗ", OdiaMatras),
     KeyModel("ଘ", OdiaMatras), KeyModel("ଙ", OdiaMatras), KeyModel("ଚ", OdiaMatras),
     KeyModel("ଛ", OdiaMatras), KeyModel("ଜ", OdiaMatras), KeyModel("ଝ", OdiaMatras),
     KeyModel("ଞ", OdiaMatras)],
    [KeyModel("ଟ", OdiaMatras), KeyModel("ଠ", OdiaMatras), KeyModel("ଡ", OdiaMatras),
     KeyModel("ଢ", OdiaMatras), KeyModel("ଣ", OdiaMatras), KeyModel("ତ", OdiaMatras),
     KeyModel("ଥ", OdiaMatras), KeyModel("ଦ", OdiaMatras), KeyModel("ଧ", OdiaMatras),
     KeyModel("ନ", OdiaMatras)],
    [KeyModel("ପ", OdiaMatras), KeyModel("ଫ", OdiaMatras), KeyModel("ବ", OdiaMatras),
     KeyModel("ଭ", OdiaMatras), KeyModel("ମ", OdiaMatras), KeyModel("ଯ", OdiaMatras),
     KeyModel("ର", OdiaMatras), KeyModel("ଲ", OdiaMatras), KeyModel("ଳ", OdiaMatras),
     KeyModel("ଵ", OdiaMatras)],
    [KeyModel("ଶ", OdiaMatras), KeyModel("ଷ", OdiaMatras), KeyModel("ସ", OdiaMatras),
     KeyModel("ହ", OdiaMatras)]
  ]

  // AllLanguageKeys.swift:166-180
  const BengaliKeys: seq<seq<KeyModel>> := [
    [KeyModel("অ"), KeyModel("আ"), KeyModel("ই"), KeyModel("ঈ"), KeyModel("উ"), KeyModel("ঊ"), KeyModel("ঋ"),
     KeyModel("এ"), KeyModel("ঐ"), KeyModel("ও")],
    [KeyModel("ঔ"), KeyModel("অং"), KeyModel("অঃ")],
    [KeyModel("ক", BengaliMatras), KeyModel("খ", BengaliMatras), KeyModel("গ", BengaliMatras),
     KeyModel("ঘ", BengaliMatras), KeyModel("ঙ", BengaliMatras), KeyModel("চ", BengaliMatras),
     KeyModel("ছ", BengaliMatras), KeyModel("জ", BengaliMatras), KeyModel("ঝ", BengaliMatras),
     KeyModel("ঞ", BengaliMatras)],
    [KeyModel("ট", BengaliMatras), KeyModel("ঠ", BengaliMatras), KeyModel("ড", BengaliMatras),
     KeyModel("ঢ", BengaliMatras), KeyModel("ণ", BengaliMatras), KeyModel("ত", BengaliMatras),
     KeyModel("থ", BengaliMatras), KeyModel("দ", BengaliMatras), KeyModel("ধ", BengaliMatras),
     KeyModel("ন", BengaliMatras)],
    [KeyModel("প", BengaliMatras), KeyModel("ফ", BengaliMatras), KeyModel("ব", BengaliMatras),
     KeyModel("ভ", BengaliMatras), KeyModel("ম", BengaliMatras), KeyModel("য", BengaliMatras),
     KeyModel("র", BengaliMatras), KeyModel("ল", BengaliMatras), KeyModel("শ", BengaliMatras),
     KeyModel("ষ", BengaliMatras)],
    [KeyModel("স", BengaliMatras), KeyModel("হ", BengaliMatras), KeyModel("়"), KeyModel("্")]
  ]

  // AllLanguageKeys.swift:184-199
  const GujaratiKeys: seq<seq<KeyModel>> := [
    [KeyModel("અ"), KeyModel("આ"), KeyModel("ઇ"), KeyModel("ઈ"), KeyModel("ઉ"), KeyModel("ઊ"), KeyModel("ઋ"),
     KeyModel("એ"), KeyModel("ઐ"), KeyModel("ઓ")],
    [KeyModel("ઔ"), KeyModel("અં"), KeyModel("અઃ")],
    [KeyModel("ક", GujaratiMatras + ["ક઼"]), KeyModel("ખ", GujaratiMatras),
     KeyModel("ગ", GujaratiMatras + ["ગ઼"]), KeyModel("ઘ", GujaratiMatras), KeyModel("ઙ", GujaratiMatras),
     KeyModel("ચ", GujaratiMatras), KeyModel("છ", GujaratiMatras), KeyModel("જ", GujaratiMatras + ["જ઼"]),
     KeyModel("ઝ", GujaratiMatras), KeyModel("ઞ", GujaratiMatras)],
    [KeyModel("ટ", GujaratiMatras), KeyModel("ઠ", GujaratiMatras), KeyModel("ડ", GujaratiMatras),
     KeyModel("ઢ", GujaratiMatras), KeyModel("ણ", GujaratiMatras), KeyModel("ત", GujaratiMatras),
     KeyModel("થ", GujaratiMatras), KeyModel("દ", GujaratiMatras), KeyModel("ધ", GujaratiMatras),
     KeyModel("ન", GujaratiMatras)],
    [KeyModel("પ", GujaratiMatras), KeyModel("ફ", GujaratiMatras + ["ફ઼"]), KeyModel("બ", GujaratiMatras),
     KeyModel("ભ", GujaratiMatras), KeyModel("મ", GujaratiMatras), KeyModel("ય", GujaratiMatras),
     KeyModel("ર", GujaratiMatras), KeyModel("લ", GujaratiMatras), KeyModel("વ", GujaratiMatras),
     KeyModel("શ", GujaratiMatras)],
    [KeyModel("ષ", GujaratiMatras), KeyModel("સ", GujaratiMatras), KeyModel("હ", GujaratiMatras),
     KeyModel("્", GujaratiMatras)]
  ]

  // AllLanguageKeys.swift:202-217
  const PunjabiKeys: seq<seq<KeyModel>> := [
    [KeyModel("ਅ"), KeyModel("ਆ"), KeyModel("ਇ"), KeyModel("ਈ"), KeyModel("ਉ"), KeyModel("ਊ"), KeyModel("ਏ"),
     KeyModel("ਐ"), KeyModel("ਓ"), KeyModel("ਔ")],
    [KeyModel("ਕ", GurmukhiMatras + ["ਕ਼"]), KeyModel("ਖ", GurmukhiMatras + ["ਖ਼"]),
     KeyModel("ਗ", GurmukhiMatras + ["ਗ਼"]), KeyModel("ਘ", GurmukhiMatras), KeyModel("ਙ", GurmukhiMatras),
     KeyModel("ਚ", GurmukhiMatras), KeyModel("ਛ", GurmukhiMatras), KeyModel("ਜ", GurmukhiMatras + ["ਜ਼"]),
     KeyModel("ਝ", GurmukhiMatras), KeyModel("ਞ", GurmukhiMatras)],
    [KeyModel("ਟ", GurmukhiMatras), KeyModel("ਠ", GurmukhiMatras), KeyModel("ਡ", GurmukhiMatras),
     KeyModel("ਢ", GurmukhiMatras), KeyModel("ਣ", GurmukhiMatras), KeyModel("ਤ", GurmukhiMatras),
     KeyModel("ਥ", GurmukhiMatras), KeyModel("ਦ", GurmukhiMatras), KeyModel("ਧ", GurmukhiMatras),
     KeyModel("ਨ", GurmukhiMatras)],
    [KeyModel("ਪ", GurmukhiMatras), KeyModel("ਫ", GurmukhiMatras + ["ਫ਼"]), KeyModel("ਬ", GurmukhiMatras),
     KeyModel("ਭ", GurmukhiMatras), KeyModel("ਮ", GurmukhiMatras), KeyModel("ਯ", GurmukhiMatras),
     KeyModel("ਰ", GurmukhiMatras), KeyModel("ਲ", GurmukhiMatras), KeyModel("ਵ", GurmukhiMatras),
     KeyModel("ਸ", GurmukhiMatras)],
    [KeyModel("ਹ", GurmukhiMatras), KeyModel("ਖ਼", GurmukhiMatras), KeyModel("ਗ਼", GurmukhiMatras),
     KeyModel("ਜ਼", GurmukhiMatras), KeyModel("ੜ", GurmukhiMatras), KeyModel("ਫ਼", GurmukhiMatras)]
  ]

  // AllLanguageKeys.swift:220-228
  const UrduKeys: seq<seq<KeyModel>> := [
    [KeyModel("ا", ["آ"]), KeyModel("ب", ["پ"]), KeyModel("ت", ["ٹ"]), KeyModel("ث"), KeyModel("ج", ["چ"]),
     KeyModel("ح"), KeyModel("خ"), KeyModel("د", ["ڈ"]), KeyModel("ذ"), KeyModel("ر", ["ڑ"])],
    [KeyModel("ز", ["ژ"]), KeyModel("س", ["ش"]), KeyModel("ص"), KeyModel("ض"), KeyModel("ط"), KeyModel("ظ"),
     KeyModel("ع"), KeyModel("غ"), KeyModel("ف"), KeyModel("ق")],
    [KeyModel("ک", ["گ"]), KeyModel("ل"), KeyModel("م"), KeyModel("ن", ["ں"]), KeyModel("و"),
     KeyModel("ہ", ["ھ"]), KeyModel("ی", ["ئ"]), KeyModel("ء"), KeyModel("ؠ"), KeyModel("؎")],
    [KeyModel("DEL")]
  ]

  // AllLanguageKeys.swift:240-249
  const EnglishKeys: seq<seq<KeyModel>> := [
    [KeyModel("q"), KeyModel("w"), KeyModel("e", EnglishPopups["E"]), KeyModel("r"), KeyModel("t"),
     KeyModel("y"), KeyModel("u", EnglishPopups["U"]), KeyModel("i", EnglishPopups["I"]),
     KeyModel("o", EnglishPopups["O"]), KeyModel("p")],
    [KeyModel("a", EnglishPopups["A"]), KeyModel("s"), KeyModel("d"), KeyModel("f"), KeyModel("g"),
     KeyModel("h"), KeyModel("j"), KeyModel("k"), KeyModel("l")],
    [KeyModel("z"), KeyModel("x"), KeyModel("c", EnglishPopups["C"]), KeyModel("v"), KeyModel("b"),
     KeyModel("n", EnglishPopups["N"]), KeyModel("m")],
    [KeyModel("123"), KeyModel(","), KeyModel(".", ["?", "!"]), KeyModel(" ")]
  ]

  // AllLanguageKeys.swift:76
  const MarathiKeys := HindiKeys

  // AllLanguageKeys.swift:77
  const SanskritKeys := HindiKeys

  // AllLanguageKeys.swift:181
  const AssameseKeys := BengaliKeys

  /** The scripts the router distinguishes. */
  datatype ScriptType =
    | Devanagari | Telugu | Tamil | Kannada | Malayalam | Odia
    | Bengali | Gujarati | Gurmukhi | Arabic | Latin

  /** Language codes the router recognises after lower-casing, two- and three-letter. */
  const RoutedCodes: set<string> := {
    "hi", "hin", "mr", "mar", "sa", "san", "te", "tel", "ta", "tam", "kn", "kan",
    "ml", "mal", "or", "ori", "bn", "ben", "as", "asm", "gu", "guj", "pa", "pan",
    "ur", "urd", "en", "eng"
  }

  /** The tables the router can return, one per language it knows. */
  datatype Table =
    | HindiTable | MarathiTable | SanskritTable | TeluguTable | TamilTable | KannadaTable
    | MalayalamTable | OdiaTable | BengaliTable | AssameseTable | GujaratiTable
    | PunjabiTable | UrduTable | EnglishTable

  /** The rows of a table. */
  function Rows(t: Table): (rows: seq<seq<KeyModel>>)
  {
    match t
    case HindiTable => HindiKeys
    case MarathiTable => MarathiKeys
    case SanskritTable => SanskritKeys
    case TeluguTable => TeluguKeys
    case TamilTable => TamilKeys
    case KannadaTable => KannadaKeys
    case MalayalamTable => MalayalamKeys
    case OdiaTable => OdiaKeys
    case BengaliTable => BengaliKeys
    case AssameseTable => AssameseKeys
    case GujaratiTable => GujaratiKeys
    case PunjabiTable => PunjabiKeys
    case UrduTable => UrduKeys
    case EnglishTable => EnglishKeys
  }

  /** The switch of `keysForLang` on an already lower-cased code;
      anything unrecognised selects the English table. */
  function Route(code: string): (t: Table)
    ensures code !in RoutedCodes ==> t == EnglishTable
  {
    match code
    case "hi" | "hin" => HindiTable
    case "mr" | "mar" => MarathiTable
    case "sa" | "san" => SanskritTable
    case "te" | "tel" => TeluguTable
    case "ta" | "tam" => TamilTable
    case "kn" | "kan" => KannadaTable
    case "ml" | "mal" => MalayalamTable
    case "or" | "ori" => OdiaTable
    case "bn" | "ben" => BengaliTable
    case "as" | "asm" => AssameseTable
    case "gu" | "guj" => GujaratiTable
    case "pa" | "pan" => PunjabiTable
    case "ur" | "urd" => UrduTable
    case "en" | "eng" => EnglishTable
    case _ => EnglishTable
  }

  /** The table `keysForLang` selects: the code is lower-cased first. */
  function TableFor(f: Foundation, code: string): (t: Table)
    ensures f.lowercased(code) !in RoutedCodes ==> t == EnglishTable
  {
    Route(f.lowercased(code))
  }

  /** `keysForLang`: an unrecognised code gets the English keys. */
  function KeysForLang(f: Foundation, code: string): (rows: seq<seq<KeyModel>>)
    ensures f.lowercased(code) !in RoutedCodes ==> rows == EnglishKeys
  {
    Rows(TableFor(f, code))
  }

  /** No table is empty and no row of one is empty, so the router, which
      falls back to English, never yields an empty layout. */
  lemma KeysForLangNonEmpty(f: Foundation, code: string)
    ensures var rows := KeysForLang(f, code);
      |rows| > 0 && forall i :: 0 <= i < |rows| ==> |rows[i]| > 0
  {
    match TableFor(f, code)
    case HindiTable =>
    case MarathiTable =>
    case SanskritTable =>
    case TeluguTable =>
    case TamilTable =>
    case KannadaTable =>
    case MalayalamTable =>
    case OdiaTable =>
    case BengaliTable =>
    case AssameseTable =>
    case GujaratiTable =>
    case PunjabiTable =>
    case UrduTable =>
    case EnglishTable =>
  }

  /** Language codes `scriptType(for:)` recognises after lower-casing:
      two-letter codes only. */
  const ScriptCodes: set<string> := {
    "hi", "mr", "sa", "te", "ta", "kn", "ml", "or", "bn", "as", "gu", "pa", "ur"
  }

  /** The switch of `scriptType(for:)` on an already lower-cased code: the
      script is Latin exactly for the codes it does not recognise, three-letter
      codes included. */
  function ScriptOf(code: string): (s: ScriptType)
    ensures s == Latin <==> code !in ScriptCodes
  {
    match code
    case "hi" | "mr" | "sa" => Devanagari
    case "te" => Telugu
    case "ta" => Tamil
    case "kn" => Kannada
    case "ml" => Malayalam
    case "or" => Odia
    case "bn" | "as" => Bengali
    case "gu" => Gujarati
    case "pa" => Gurmukhi
    case "ur" => Arabic
    case _ => Latin
  }

  /** `scriptType(for:)`: the code is lower-cased first. */
  function ScriptTypeFor(f: Foundation, code: string): (s: ScriptType)
    ensures s == Latin <==> f.lowercased(code) !in ScriptCodes
  {
    ScriptOf(f.lowercased(code))
  }

  /** A key written without variants has none. */
  lemma PopupDefaultsToEmpty(main: string)
    ensures KeyModel(main).popup == []
  {
  }

  /** ASCII text without capitals is its own lower-case form. */
  lemma {:induction false} LowerOfLowercase(f: Foundation, s: string)
    requires f.Valid() && IsAscii(s)
    requires forall i :: 0 <= i < |s| ==> !('A' <= s[i] <= 'Z')
    ensures f.lowercased(s) == s
  {
    assert AsciiLower(s) == s by {
      forall i | 0 <= i < |s| ensures AsciiLower(s)[i] == s[i] {
      }
    }
  }

  /** Routing ignores the case of ASCII codes: codes that differ only in the
      case of their letters get the same table. */
  lemma KeysForLangIgnoresCase(f: Foundation, a: string, b: string)
    requires f.Valid() && IsAscii(a) && IsAscii(b)
    requires AsciiLower(a) == AsciiLower(b)
    ensures TableFor(f, a) == TableFor(f, b)
    ensures ScriptTypeFor(f, a) == ScriptTypeFor(f, b)
  {
  }

  /** "HI" is routed to the Hindi table, as "hi" is. */
  lemma UpperCaseHindi(f: Foundation)
    requires f.Valid()
    ensures TableFor(f, "HI") == TableFor(f, "hi") == HindiTable
  {
    LowerOfLowercase(f, "hi");
    assert AsciiLower("HI") == "hi" by {
      assert AsciiLower("HI")[0] == 'h' && AsciiLower("HI")[1] == 'i';
    }
  }

  /** Each two-letter code and its three-letter form share a table: the
      Devanagari and Bengali-script languages. */
  lemma SharedTablesNorth()
    ensures Route("hi") == Route("hin") == HindiTable
    ensures Route("mr") == Route("mar") == MarathiTable
    ensures Route("sa") == Route("san") == SanskritTable
    ensures Route("bn") == Route("ben") == BengaliTable
    ensures Route("as") == Route("asm") == AssameseTable
  {
  }

  /** The same for the Dravidian languages. */
  lemma SharedTablesSouth()
    ensures Route("te") == Route("tel") == TeluguTable
    ensures Route("ta") == Route("tam") == TamilTable
    ensures Route("kn") == Route("kan") == KannadaTable
    ensures Route("ml") == Route("mal") == MalayalamTable
  {
  }

  /** The same for Odia, Gujarati, Punjabi, Urdu and English. */
  lemma SharedTablesOther()
    ensures Route("or") == Route("ori") == OdiaTable
    ensures Route("gu") == Route("guj") == GujaratiTable
    ensures Route("pa") == Route("pan") == PunjabiTable
    ensures Route("ur") == Route("urd") == UrduTable
    ensures Route("en") == Route("eng") == EnglishTable
  {
  }

  /** Every vowel sign on the Tamil long-press list is in the Tamil block
      except the third, U+0CC0, the Kannada vowel sign ii (Tamil's is U+0BC0). */
  lemma TamilMatraFromKannada()
    ensures TamilMatras[2] == "\U{0CC0}"
    ensures forall i :: 0 <= i < |TamilMatras| && i != 2 ==>
      |TamilMatras[i]| == 1 && 0x0B80 <= TamilMatras[i][0] as int < 0x0C00
  {
  }

  /** Marathi and Sanskrit type on the Hindi keys, Assamese on the Bengali keys. */
  lemma AliasedTables()
    ensures Rows(MarathiTable) == Rows(HindiTable) && Rows(SanskritTable) == Rows(HindiTable)
    ensures Rows(AssameseTable) == Rows(BengaliTable)
  {
  }

  /** The script classifier knows only two-letter codes: "hi", "mr" and "sa"
      are Devanagari and "bn", "as" Bengali, while the three-letter "hin",
      which the router sends to the Hindi table, falls through to Latin. */
  lemma ScriptTypes()
    ensures ScriptOf("hi") == ScriptOf("mr") == ScriptOf("sa") == Devanagari
    ensures ScriptOf("te") == Telugu && ScriptOf("ta") == Tamil
    ensures ScriptOf("kn") == Kannada && ScriptOf("ml") == Malayalam
    ensures ScriptOf("or") == Odia && ScriptOf("bn") == ScriptOf("as") == Bengali
    ensures ScriptOf("gu") == Gujarati && ScriptOf("pa") == Gurmukhi && ScriptOf("ur") == Arabic
    ensures ScriptOf("hin") == Latin && Route("hin") == HindiTable
  {
  }

  /** A lower-case code is routed as written. */
  lemma LowerCaseCodeRoutesAsWritten(f: Foundation, code: string)
    requires f.Valid() && IsAscii(code)
    requires forall i :: 0 <= i < |code| ==> !('A' <= code[i] <= 'Z')
    ensures TableFor(f, code) == Route(code) && ScriptTypeFor(f, code) == ScriptOf(code)
  {
    LowerOfLowercase(f, code);
  }
}
