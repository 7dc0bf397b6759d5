/** The fixed English-to-Turkish dictionary `translateWords` consults
    (src/utils/ocrService.ts:48-412), entry by entry in source order. The
    entries are split into parts of thirty; `Table` joins the parts with the
    map union, whose right operand wins, and inside a part a later `:=` for
    the same key replaces an earlier one. Together this is the object-literal
    rule: for a key written twice, the later entry counts. */
module Dictionary {

  const Part0: map<string, string> := map[
    "vocabulary" := "kelime hazinesi",
    "grammar" := "dilbilgisi",
    "pronunciation" := "telaffuz",
    "fluent" := "akıcı",
    "sentence" := "cümle",
    "paragraph" := "paragraf",
    "dictionary" := "sözlük",
    "translate" := "çevirmek",
    "language" := "dil",
    "word" := "kelime",
    "learn" := "öğrenmek",
    "study" := "çalışmak",
    "practice" := "pratik",
    "speak" := "konuşmak",
    "listen" := "dinlemek",
    "read" := "okumak",
    "write" := "yazmak",
    "understand" := "anlamak",
    "book" := "kitap",
    "page" := "sayfa",
    "chapter" := "bölüm",
    "text" := "metin",
    "letter" := "mektup",
    "alphabet" := "alfabe",
    "meaning" := "anlam",
    "definition" := "tanım",
    "example" := "örnek",
    "question" := "soru",
    "answer" := "cevap",
    "correct" := "doğru"]

  const Part1: map<string, string> := map[
    "incorrect" := "yanlış",
    "error" := "hata",
    "test" := "test",
    "exam" := "sınav",
    "score" := "puan",
    "progress" := "ilerleme",
    "level" := "seviye",
    "beginner" := "başlangıç",
    "intermediate" := "orta",
    "advanced" := "ileri",
    "native" := "anadil",
    "foreign" := "yabancı",
    "international" := "uluslararası",
    "global" := "küresel",
    "local" := "yerel",
    "regional" := "bölgesel",
    "accent" := "aksan",
    "dialect" := "lehçe",
    "idiom" := "deyim",
    "phrase" := "ifade",
    "expression" := "ifade",
    "slang" := "argo",
    "formal" := "resmi",
    "informal" := "gayri resmi",
    "colloquial" := "günlük konuşma",
    "academic" := "akademik",
    "technical" := "teknik",
    "scientific" := "bilimsel",
    "literary" := "edebi",
    "poetic" := "şiirsel"]

  const Part2: map<string, string> := map[
    "metaphor" := "metafor",
    "simile" := "benzetme",
    "analogy" := "analoji",
    "synonym" := "eş anlamlı",
    "antonym" := "zıt anlamlı",
    "homonym" := "eş sesli",
    "homophone" := "eş sesli",
    "homograph" := "eş yazılı",
    "prefix" := "önek",
    "suffix" := "sonek",
    "root" := "kök",
    "stem" := "gövde",
    "conjugation" := "çekim",
    "declension" := "çekim",
    "tense" := "zaman",
    "mood" := "kip",
    "voice" := "çatı",
    "aspect" := "görünüş",
    "person" := "şahıs",
    "number" := "sayı",
    "gender" := "cinsiyet",
    "case" := "durum",
    "article" := "tanımlık",
    "noun" := "isim",
    "pronoun" := "zamir",
    "verb" := "fiil",
    "adjective" := "sıfat",
    "adverb" := "zarf",
    "preposition" := "edat",
    "conjunction" := "bağlaç"]

  const Part3: map<string, string> := map[
    "interjection" := "ünlem",
    "subject" := "özne",
    "predicate" := "yüklem",
    "object" := "nesne",
    "complement" := "tümleç",
    "clause" := "yan cümle",
    "phrase" := "öbek",
    "syntax" := "sözdizimi",
    "semantics" := "anlambilim",
    "pragmatics" := "edimbilim",
    "phonetics" := "sesbilim",
    "phonology" := "sesbilgisi",
    "morphology" := "biçimbilim",
    "lexicology" := "sözcükbilim",
    "etymology" := "köken bilimi",
    "linguistics" := "dilbilim",
    "translation" := "çeviri",
    "interpretation" := "yorumlama",
    "communication" := "iletişim",
    "conversation" := "konuşma",
    "dialogue" := "diyalog",
    "monologue" := "monolog",
    "speech" := "konuşma",
    "presentation" := "sunum",
    "debate" := "tartışma",
    "discussion" := "tartışma",
    "argument" := "argüman",
    "opinion" := "görüş",
    "thought" := "düşünce",
    "idea" := "fikir"]

  const Part4: map<string, string> := map[
    "concept" := "kavram",
    "theory" := "teori",
    "hypothesis" := "hipotez",
    "conclusion" := "sonuç",
    "summary" := "özet",
    "abstract" := "özet",
    "introduction" := "giriş",
    "body" := "gövde",
    "conclusion" := "sonuç",
    "reference" := "referans",
    "citation" := "alıntı",
    "quotation" := "alıntı",
    "bibliography" := "kaynakça",
    "glossary" := "sözlük",
    "index" := "dizin",
    "appendix" := "ek",
    "annotation" := "not",
    "footnote" := "dipnot",
    "endnote" := "son not",
    "comment" := "yorum",
    "feedback" := "geri bildirim",
    "review" := "inceleme",
    "critique" := "eleştiri",
    "analysis" := "analiz",
    "evaluation" := "değerlendirme",
    "assessment" := "değerlendirme",
    "grade" := "not",
    "mark" := "not",
    "score" := "puan",
    "point" := "puan"]

  const Part5: map<string, string> := map[
    "credit" := "kredi",
    "unit" := "birim",
    "module" := "modül",
    "course" := "kurs",
    "program" := "program",
    "curriculum" := "müfredat",
    "syllabus" := "ders programı",
    "lesson" := "ders",
    "class" := "sınıf",
    "lecture" := "ders",
    "seminar" := "seminer",
    "workshop" := "atölye",
    "tutorial" := "öğretici",
    "exercise" := "alıştırma",
    "drill" := "alıştırma",
    "practice" := "pratik",
    "homework" := "ev ödevi",
    "assignment" := "ödev",
    "project" := "proje",
    "research" := "araştırma",
    "study" := "çalışma",
    "learning" := "öğrenme",
    "teaching" := "öğretme",
    "education" := "eğitim",
    "training" := "eğitim",
    "instruction" := "öğretim",
    "pedagogy" := "pedagoji",
    "didactics" := "didaktik",
    "methodology" := "metodoloji",
    "approach" := "yaklaşım"]

  const Part6: map<string, string> := map[
    "method" := "yöntem",
    "technique" := "teknik",
    "strategy" := "strateji",
    "tactic" := "taktik",
    "plan" := "plan",
    "goal" := "hedef",
    "objective" := "amaç",
    "aim" := "amaç",
    "purpose" := "amaç",
    "intention" := "niyet",
    "motivation" := "motivasyon",
    "inspiration" := "ilham",
    "aspiration" := "arzu",
    "ambition" := "hırs",
    "dream" := "hayal",
    "vision" := "vizyon",
    "mission" := "misyon",
    "value" := "değer",
    "principle" := "ilke",
    "rule" := "kural",
    "regulation" := "yönetmelik",
    "law" := "kanun",
    "code" := "kod",
    "standard" := "standart",
    "norm" := "norm",
    "convention" := "gelenek",
    "tradition" := "gelenek",
    "custom" := "adet",
    "habit" := "alışkanlık",
    "routine" := "rutin"]

  const Part7: map<string, string> := map[
    "pattern" := "desen",
    "structure" := "yapı",
    "system" := "sistem",
    "organization" := "organizasyon",
    "institution" := "kurum",
    "establishment" := "kuruluş",
    "foundation" := "vakıf",
    "association" := "dernek",
    "society" := "toplum",
    "community" := "topluluk",
    "group" := "grup",
    "team" := "takım",
    "member" := "üye",
    "participant" := "katılımcı",
    "student" := "öğrenci",
    "pupil" := "öğrenci",
    "learner" := "öğrenci",
    "teacher" := "öğretmen",
    "instructor" := "eğitmen",
    "professor" := "profesör",
    "lecturer" := "öğretim görevlisi",
    "tutor" := "özel öğretmen",
    "mentor" := "mentor",
    "coach" := "koç",
    "guide" := "rehber",
    "advisor" := "danışman",
    "counselor" := "danışman",
    "consultant" := "danışman",
    "expert" := "uzman",
    "specialist" := "uzman"]

  const Part8: map<string, string> := map[
    "professional" := "profesyonel",
    "amateur" := "amatör",
    "beginner" := "başlangıç",
    "novice" := "acemi",
    "intermediate" := "orta seviye",
    "advanced" := "ileri seviye",
    "master" := "usta",
    "expert" := "uzman",
    "genius" := "dahi",
    "talent" := "yetenek",
    "skill" := "beceri",
    "ability" := "yetenek",
    "competence" := "yetkinlik",
    "proficiency" := "yeterlilik",
    "fluency" := "akıcılık",
    "accuracy" := "doğruluk",
    "precision" := "kesinlik",
    "clarity" := "netlik",
    "coherence" := "tutarlılık",
    "cohesion" := "bağdaşıklık",
    "unity" := "birlik",
    "harmony" := "uyum",
    "balance" := "denge",
    "proportion" := "oran",
    "symmetry" := "simetri",
    "rhythm" := "ritim",
    "tempo" := "tempo",
    "pace" := "hız",
    "speed" := "hız",
    "rate" := "oran"]

  const Part9: map<string, string> := map[
    "frequency" := "sıklık",
    "intensity" := "yoğunluk",
    "volume" := "hacim",
    "tone" := "ton",
    "pitch" := "perde",
    "stress" := "vurgu",
    "emphasis" := "vurgu",
    "focus" := "odak",
    "attention" := "dikkat",
    "concentration" := "konsantrasyon",
    "memory" := "hafıza",
    "recall" := "hatırlama",
    "recognition" := "tanıma",
    "perception" := "algı",
    "sensation" := "his",
    "feeling" := "duygu",
    "emotion" := "duygu",
    "mood" := "ruh hali",
    "attitude" := "tutum",
    "behavior" := "davranış",
    "action" := "eylem",
    "reaction" := "tepki",
    "response" := "yanıt",
    "feedback" := "geri bildirim",
    "input" := "girdi",
    "output" := "çıktı",
    "result" := "sonuç",
    "outcome" := "sonuç",
    "effect" := "etki",
    "impact" := "etki"]

  const Part10: map<string, string> := map[
    "influence" := "etki",
    "power" := "güç",
    "force" := "kuvvet",
    "energy" := "enerji",
    "strength" := "güç",
    "weakness" := "zayıflık",
    "advantage" := "avantaj",
    "disadvantage" := "dezavantaj",
    "benefit" := "fayda",
    "cost" := "maliyet",
    "price" := "fiyat",
    "value" := "değer",
    "worth" := "değer",
    "quality" := "kalite",
    "quantity" := "miktar",
    "amount" := "miktar",
    "number" := "sayı",
    "figure" := "rakam",
    "digit" := "rakam",
    "numeral" := "sayı",
    "letter" := "harf",
    "character" := "karakter",
    "symbol" := "sembol",
    "sign" := "işaret",
    "mark" := "işaret",
    "punctuation" := "noktalama",
    "period" := "nokta",
    "comma" := "virgül",
    "colon" := "iki nokta",
    "semicolon" := "noktalı virgül"]

  const Part11: map<string, string> := map[
    "question" := "soru işareti",
    "exclamation" := "ünlem",
    "quotation" := "tırnak",
    "parenthesis" := "parantez",
    "bracket" := "köşeli parantez",
    "dash" := "tire",
    "hyphen" := "kısa çizgi",
    "apostrophe" := "kesme işareti",
    "ellipsis" := "üç nokta",
    "asterisk" := "yıldız",
    "ampersand" := "ve işareti",
    "percent" := "yüzde",
    "degree" := "derece",
    "plus" := "artı",
    "minus" := "eksi",
    "multiply" := "çarpı",
    "divide" := "bölü",
    "equal" := "eşittir",
    "not" := "değil",
    "greater" := "büyüktür",
    "less" := "küçüktür",
    "infinity" := "sonsuz",
    "zero" := "sıfır",
    "one" := "bir",
    "two" := "iki",
    "three" := "üç",
    "four" := "dört",
    "five" := "beş",
    "six" := "altı",
    "seven" := "yedi"]

  const Part12: map<string, string> := map[
    "eight" := "sekiz",
    "nine" := "dokuz",
    "ten" := "on"]

  const Table: map<string, string> :=
    Part0 + Part1 + Part2 + Part3 + Part4 + Part5 + Part6 + Part7 + Part8 + Part9 + Part10 + Part11 + Part12

  lemma PhraseIn3()
    ensures "phrase" in Part3 && Part3["phrase"] == "öbek"
  {
  }

  lemma PhraseIn4()
    ensures "phrase" !in Part4
  {
  }

  lemma PhraseIn5()
    ensures "phrase" !in Part5
  {
  }

  lemma PhraseIn6()
    ensures "phrase" !in Part6
  {
  }

  lemma PhraseIn7()
    ensures "phrase" !in Part7
  {
  }

  lemma PhraseIn8()
    ensures "phrase" !in Part8
  {
  }

  lemma PhraseIn9()
    ensures "phrase" !in Part9
  {
  }

  lemma PhraseIn10()
    ensures "phrase" !in Part10
  {
  }

  lemma PhraseIn11()
    ensures "phrase" !in Part11
  {
  }

  lemma PhraseIn12()
    ensures "phrase" !in Part12
  {
  }

  /** "phrase" is written twice; the later entry, "öbek", is the one looked up. */
  lemma PhraseLaterEntryWins()
    ensures "phrase" in Table && Table["phrase"] == "öbek"
  {
    PhraseIn3();
    PhraseIn4();
    PhraseIn5();
    PhraseIn6();
    PhraseIn7();
    PhraseIn8();
    PhraseIn9();
    PhraseIn10();
    PhraseIn11();
    PhraseIn12();
  }

  lemma LetterIn10()
    ensures "letter" in Part10 && Part10["letter"] == "harf"
  {
  }

  lemma LetterIn11()
    ensures "letter" !in Part11
  {
  }

  lemma LetterIn12()
    ensures "letter" !in Part12
  {
  }

  /** "letter" is written twice; the later entry, "harf", is the one looked up. */
  lemma LetterLaterEntryWins()
    ensures "letter" in Table && Table["letter"] == "harf"
  {
    LetterIn10();
    LetterIn11();
    LetterIn12();
  }

  lemma QuestionIn11()
    ensures "question" in Part11 && Part11["question"] == "soru işareti"
  {
  }

  lemma QuestionIn12()
    ensures "question" !in Part12
  {
  }

  /** "question" is written twice; the later entry, "soru işareti", is the one looked up. */
  lemma QuestionLaterEntryWins()
    ensures "question" in Table && Table["question"] == "soru işareti"
  {
    QuestionIn11();
    QuestionIn12();
  }

}
