/** The chat widget's keyword matcher: the fixed FAQ table and the
    first-match search over it. */
module FaqMatcher {
  import opened Text
  import opened Wrappers

  /** One record of the FAQ table: the question it answers, the answer
      text, and the lower-case keywords that select it. */
  datatype FaqRecord = FaqRecord(question: string, answer: string, keywords: seq<string>)

  /** The chat widget's FAQ table, in its fixed order. */
  const FaqData: seq<FaqRecord> := [
    FaqRecord(
      "Что такое Webly AI?",
      "Webly AI — это интеллектуальная платформа для создания сайтов с помощью искусственного интеллекта. Просто опишите свою идею, и AI создаст готовый сайт за минуты.",
      ["что такое", "webly", "описание", "платформа", "ai"]),
    FaqRecord(
      "Нужны ли навыки программирования?",
      "Нет! Webly AI создан для всех — от новичков до профессионалов. Вам не нужно писать ни строчки кода. AI сделает всё за вас.",
      ["программирование", "код", "навыки", "нужен", "уметь"]),
    FaqRecord(
      "Могу ли я использовать свой домен?",
      "Да! На тарифе Pro и выше вы можете подключить свой собственный домен. Бесплатный план включает поддомен webly.ai.",
      ["домен", "свой", "подключить", "поддомен"]),
    FaqRecord(
      "Как работает AI-генерация?",
      "Наш AI анализирует ваше описание, выбирает оптимальную структуру, генерирует уникальный дизайн и создаёт адаптивный сайт. Всё происходит в реальном времени.",
      ["генерация", "как работает", "создание", "процесс"]),
    FaqRecord(
      "Что включено в бесплатный план?",
      "Бесплатный план включает 5 проектов, базовые шаблоны, поддержку сообщества и SSL-сертификат. Это отличный способ начать знакомство с Webly AI.",
      ["бесплатный", "план", "что включено", "возможности"])
  ]

  /** `keywords.some(keyword => text.includes(keyword))`. */
  function AnyKeywordIn(keywords: seq<string>, text: string): bool
  {
    if keywords == [] then false
    else Includes(text, keywords[0]) || AnyKeywordIn(keywords[1..], text)
  }

  /** Some keyword of `rec` is a substring of `text`. */
  ghost predicate RecordMatches(rec: FaqRecord, text: string) {
    exists j :: 0 <= j < |rec.keywords| && IsSubstring(rec.keywords[j], text)
  }

  /** `AnyKeywordIn` holds exactly when some keyword occurs in `text`. */
  lemma {:induction false} AnyKeywordInMatches(keywords: seq<string>, text: string)
    ensures AnyKeywordIn(keywords, text)
        <==> exists j :: 0 <= j < |keywords| && IsSubstring(keywords[j], text)
  {
    if keywords != [] {
      IncludesIsSubstring(text, keywords[0]);
      AnyKeywordInMatches(keywords[1..], text);
      if exists j :: 0 <= j < |keywords| && IsSubstring(keywords[j], text) {
        var j :| 0 <= j < |keywords| && IsSubstring(keywords[j], text);
        if j > 0 { assert keywords[1..][j - 1] == keywords[j]; }
      }
      if exists j :: 0 <= j < |keywords[1..]| && IsSubstring(keywords[1..][j], text) {
        var j :| 0 <= j < |keywords[1..]| && IsSubstring(keywords[1..][j], text);
        assert keywords[j + 1] == keywords[1..][j];
      }
    }
  }

  /** The search loop of `findFAQAnswer`: the answer of the first record
      of `table` one of whose keywords occurs in `text`, or `null`. */
  function FirstAnswer(table: seq<FaqRecord>, text: string): Option<string>
  {
    if table == [] then None
    else if AnyKeywordIn(table[0].keywords, text) then Some(table[0].answer)
    else FirstAnswer(table[1..], text)
  }

  /** Record `i` is the first record of `table` that matches `text`. */
  ghost predicate IsFirstMatch(table: seq<FaqRecord>, text: string, i: int) {
    0 <= i < |table| && RecordMatches(table[i], text)
    && forall j :: 0 <= j < i ==> !RecordMatches(table[j], text)
  }

  /** First match wins: the search returns the answer of record `i` when
      `i` is the first record with a keyword in `text`, whatever the
      later records hold. */
  lemma {:induction false} FirstAnswerOfFirstMatch(table: seq<FaqRecord>, text: string, i: int)
    requires IsFirstMatch(table, text, i)
    ensures FirstAnswer(table, text) == Some(table[i].answer)
  {
    AnyKeywordInMatches(table[0].keywords, text);
    if i > 0 {
      assert !RecordMatches(table[0], text);
      forall j | 0 <= j < i - 1 ensures !RecordMatches(table[1..][j], text) {
        assert table[1..][j] == table[j + 1];
      }
      assert table[1..][i - 1] == table[i];
      FirstAnswerOfFirstMatch(table[1..], text, i - 1);
    }
  }

  /** The search returns `null` exactly when no record of `table` has a
      keyword that occurs in `text`. */
  lemma {:induction false} FirstAnswerNone(table: seq<FaqRecord>, text: string)
    ensures FirstAnswer(table, text) == None
        <==> forall i :: 0 <= i < |table| ==> !RecordMatches(table[i], text)
  {
    if table != [] {
      AnyKeywordInMatches(table[0].keywords, text);
      FirstAnswerNone(table[1..], text);
      if FirstAnswer(table, text) == None {
        forall i | 0 <= i < |table| ensures !RecordMatches(table[i], text) {
          if i > 0 { assert table[i] == table[1..][i - 1]; }
        }
      } else if !AnyKeywordIn(table[0].keywords, text) {
        var i :| 0 <= i < |table[1..]| && RecordMatches(table[1..][i], text);
        assert table[i + 1] == table[1..][i];
      }
    }
  }

  /** Whatever the search returns is the answer of the first matching
      record: a non-null result always comes from a first match. */
  lemma {:induction false} FirstAnswerIsFirstMatch(table: seq<FaqRecord>, text: string)
    requires FirstAnswer(table, text).Some?
    ensures exists i :: IsFirstMatch(table, text, i)
                        && FirstAnswer(table, text).value == table[i].answer
  {
    AnyKeywordInMatches(table[0].keywords, text);
    if AnyKeywordIn(table[0].keywords, text) {
      assert IsFirstMatch(table, text, 0);
    } else {
      FirstAnswerIsFirstMatch(table[1..], text);
      var i :| IsFirstMatch(table[1..], text, i)
               && FirstAnswer(table[1..], text).value == table[1..][i].answer;
      forall j | 0 <= j < i + 1 ensures !RecordMatches(table[j], text) {
        if j > 0 { assert table[j] == table[1..][j - 1]; }
      }
      assert IsFirstMatch(table, text, i + 1);
    }
  }

  /** `findFAQAnswer(input)`: lower-case the input, then search the FAQ
      table in order. */
  function FindFaqAnswer(input: string): Option<string>
  {
    FirstAnswer(FaqData, Lower(input))
  }

  /** Matching ignores case: an input and its lower-case form get the
      same answer. */
  lemma FindFaqAnswerIgnoresCase(input: string)
    ensures FindFaqAnswer(Lower(input)) == FindFaqAnswer(input)
  {
    LowerIdempotent(input);
  }

  /** Every keyword of the table is non-empty, so the empty input
      matches nothing. */
  lemma EmptyInputHasNoAnswer()
    ensures FindFaqAnswer("") == None
  {
    forall i | 0 <= i < |FaqData| ensures !RecordMatches(FaqData[i], Lower("")) {
      assert forall j :: 0 <= j < |FaqData[i].keywords| ==> |FaqData[i].keywords[j]| > 0;
    }
    FirstAnswerNone(FaqData, Lower(""));
  }

  /** An input one of whose words is a keyword of some record gets an
      answer from the table (that record's or an earlier one's). */
  lemma {:induction false} KeywordInInputIsMatched(input: string, i: int, j: int, at: nat)
    requires 0 <= i < |FaqData| && 0 <= j < |FaqData[i].keywords|
    requires OccursAt(FaqData[i].keywords[j], Lower(input), at)
    ensures FindFaqAnswer(input).Some?
  {
    assert RecordMatches(FaqData[i], Lower(input));
    FirstAnswerNone(FaqData, Lower(input));
  }

  /** The question text of the fourth record, "Как работает AI-генерация?",
      is answered with the FIRST record's answer: the first record's short
      keyword "ai" occurs in "как работает ai-генерация?" and the first
      match wins. */
  lemma AiGenerationQuestionGetsFirstAnswer()
    ensures FindFaqAnswer(FaqData[3].question) == Some(FaqData[0].answer)
    ensures FindFaqAnswer(FaqData[3].question) != Some(FaqData[3].answer)
  {
    var text := Lower(FaqData[3].question);
    assert text[13..15] == "ai";
    assert OccursAt(FaqData[0].keywords[4], text, 13);
    assert IsFirstMatch(FaqData, text, 0);
    FirstAnswerOfFirstMatch(FaqData, text, 0);
  }

  /** "Что такое Webly AI?" is answered with the first record's answer. */
  lemma WhatIsWeblyGetsFirstAnswer()
    ensures FindFaqAnswer("Что такое Webly AI?") == Some(FaqData[0].answer)
  {
    var text := Lower("Что такое Webly AI?");
    assert text[..9] == "что такое";
    assert OccursAt(FaqData[0].keywords[0], text, 0);
    assert IsFirstMatch(FaqData, text, 0);
    FirstAnswerOfFirstMatch(FaqData, text, 0);
  }
}
