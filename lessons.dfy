/** The built-in lesson catalog (src/data/lessons.js) as a constant, and its well-formedness
    facts, each established by evaluating the constant. */
module Lessons {
  import opened Common
  import opened Content
  import InteractiveSlide

  /** The slide types a lesson may use. */
  const SlideKinds: set<string> := {"intro", "theory", "fact", "interactive", "outtro"}

  /** Lesson `ch-lesson-1` of topic `cyber-hygiene`. */
  const ChLesson1: Lesson :=
    Lesson("ch-lesson-1", "Магия сильных паролей",
      "Почему \"123456\" — это плохая идея и как создать пароль, который не взломают за миллиард лет.",
      "5 мин",
    [
      Slide("slide-1", "intro", "Пароли: Твоя первая линия обороны",
        Some("Ты когда-нибудь задумывался, как быстро хакеры могут подобрать твой пароль? Спойлер: очень быстро. Если твой пароль '123456' или 'password', тебя взломают за 0.0001 секунды."),
        None, None, None, None, None),
      Slide("slide-2", "fact", "Шокирующая статистика",
        Some("Пароль из 8 символов взламывается за **5 минут**.\n\nПароль из 12 символов? За **200 лет**.\n\nКаждый дополнительный символ увеличивает время взлома экспоненциально!"),
        None, None, None, None, Some("Clock")),
      Slide("slide-3", "theory", "Два пути самурая",
        Some("Есть два способа создать надежную защиту. Оба **одинаково безопасны**, но один из них удобнее.\n\n1.  **Классический (Сложный):**\n    Набор символов: `X7#m_9$pL2`.\n    *   ✅ Компьютер не взломает.\n    *   ❌ Человеку невозможно запомнить. Идеально для менеджеров паролей.\n\n2.  **Мнемофраза (Удобный):**\n    Набор слов: `correct-horse-battery-staple`.\n    *   ✅ Длина > 20 символов делает взлом невозможным.\n    *   ✅ **Легко запомнить.** Наш мозг любит образы.\n\nВыбирай мнемофразы для тех паролей, которые нужно вводить руками (вход в систему, мастер-пароль)."),
        None, None, None, None, None),
      Slide("slide-4-a", "interactive", "Уровень 1: Отсеиваем мусор",
        None,
        Some("term-sorter"), Some("Убери откровенно слабые пароли."), Some([TermItem("1", "password123", "unsafe"), TermItem("2", "admin", "unsafe"), TermItem("3", "K#9mP$2v", "safe"), TermItem("4", "iloveyou", "unsafe"), TermItem("5", "L8*q_Z1!", "safe")]), None, None),
      Slide("slide-4-b", "interactive", "Уровень 2: Удобство или Хардкор?",
        None,
        Some("term-sorter"), Some("Оба типа защиты надежны. Но что легче запомнить, а что лучше доверить менеджеру паролей?"), Some([TermItem("1", "X7#m_9$pL2", "unsafe"), TermItem("2", "coffee-jump-sky-blue", "safe"), TermItem("3", "9#vB!mk2", "unsafe"), TermItem("4", "purple-elephant-running", "safe"), TermItem("5", "Tr0ub4dor&3", "unsafe")]), Some(Labels(Some("Мнемофраза (Слова)"), Some("Хардкор (Символы)"))), None),
      Slide("slide-5", "interactive", "Создай свою Мнемофразу",
        None,
        Some("password-builder"), Some("Попробуй ввести 4 случайных слова через пробел или тире. Например: 'lazy-dog-sleeping-sun'."), None, None, None),
      Slide("slide-6", "outtro", "Миссия выполнена!",
        Some("Ты освоил современный стандарт защиты. Используй мнемофразы для мастер-паролей и важных аккаунтов."),
        None, None, None, None, None)
    ])

  /** Lesson `ch-lesson-2` of topic `cyber-hygiene`. */
  const ChLesson2: Lesson :=
    Lesson("ch-lesson-2", "Двухфакторная аутентификация (2FA)",
      "Зачем нужен второй ключ от твоего цифрового дома.",
      "7 мин",
    [])

  /** Lesson `lesson-1` of topic `phishing`. */
  const PhishingLesson1: Lesson :=
    Lesson("lesson-1", "Охота на фишера",
      "Как отличить настоящее письмо от подделки и не потерять аккаунт.",
      "5 мин",
    [
      Slide("slide-1", "intro", "Что такое Фишинг?",
        Some("Фишинг (Phishing) — это ловля на живца. Хакеры закидывают тебе \"наживку\" (ссылку), надеясь, что ты клюнешь."),
        None, None, None, None, None),
      Slide("slide-2", "fact", "Цена ошибки",
        Some("90% всех взломов компаний начинаются с одного фишингового письма, которое открыл неосторожный сотрудник."),
        None, None, None, None, None),
      Slide("slide-3", "interactive", "Симулятор: Steam Support",
        None,
        Some("chat-simulation"), Some("Тебе пришло сообщение. Твои действия?"), None, None, None),
      Slide("slide-4", "outtro", "Ты внимателен!",
        Some("Всегда проверяй адрес отправителя и домен ссылки. Steam никогда не пишет в личку с просьбой перейти по ссылке."),
        None, None, None, None, None)
    ])

  /** Lesson `wifi-lesson-1` of topic `safe-wifi`. */
  const WifiLesson1: Lesson :=
    Lesson("wifi-lesson-1", "Опасности открытых сетей",
      "Как безопасно пользоваться Wi-Fi в кафе и отелях.",
      "3 мин",
    [
      Slide("slide-1", "intro", "Бесплатный Wi-Fi?",
        Some("Ты зашел в кафе, увидел сеть 'Free_Pizza_Wifi' и сразу подключился. Стоп. А это точно сеть кафе?"),
        None, None, None, None, None),
      Slide("slide-2", "interactive", "Выбери сеть",
        None,
        Some("wifi-simulator"), Some("Попробуй подключиться безопасно. Используй VPN, если нужно."), None, None, None),
      Slide("slide-3", "outtro", "Ты под защитой!",
        Some("Открытые сети без пароля шифруют трафик. Хакер может видеть всё, что ты отправляешь. Всегда используй VPN в публичных местах."),
        None, None, None, None, None)
    ])

  /** Lesson `crypto-lesson-1` of topic `crypto-safety`. */
  const CryptoLesson1: Lesson :=
    Lesson("crypto-lesson-1", "Как не потерять крипту",
      "Отличаем настоящие токены от подделок.",
      "4 мин",
    [
      Slide("slide-1", "intro", "Дикий Запад Крипты",
        Some("В крипте нет техподдержки, которая вернет деньги. Если ты отправишь токены мошеннику — они исчезнут навсегда."),
        None, None, None, None, None),
      Slide("slide-2", "interactive", "Проверка Контракта",
        None,
        Some("crypto-scanner"), Some("Тебе предлагают купить новый USDT. Какой из них настоящий?"), None, None, None),
      Slide("slide-3", "outtro", "DYOR (Do Your Own Research)",
        Some("Всегда сверяй адреса контрактов на официальных сайтах (CoinMarketCap, Etherscan). Мошенники часто меняют 1-2 символа."),
        None, None, None, None, None)
    ])

  /** `LESSONS`: topic ids with their lessons, in declaration order. */
  const LessonCatalog: Content.Catalog := [
    TopicLessons("cyber-hygiene", [ChLesson1, ChLesson2]),
    TopicLessons("phishing", [PhishingLesson1]),
    TopicLessons("safe-wifi", [WifiLesson1]),
    TopicLessons("crypto-safety", [CryptoLesson1]),
    TopicLessons("digital-footprint", [])
  ]

  /** Every lesson of a catalog, topic by topic, in order: a lesson is listed exactly when some topic
      holds it, and `AllLessonsAppend` gives the order. */
  function AllLessons(c: Content.Catalog): (ls: seq<Lesson>)
    ensures c == [] ==> ls == []
    ensures forall l :: l in ls <==> exists k :: 0 <= k < |c| && l in c[k].lessons
  {
    if c == [] then []
    else
      var rest := AllLessons(c[1..]);
      assert forall l :: (exists k :: 0 <= k < |c| && l in c[k].lessons) ==> l in c[0].lessons + rest by {
        forall l, k | 0 <= k < |c| && l in c[k].lessons ensures l in c[0].lessons + rest {
          if k > 0 { assert c[1..][k - 1] == c[k]; }
        }
      }
      assert forall l :: l in rest ==> exists k :: 0 <= k < |c| && l in c[k].lessons by {
        forall l | l in rest ensures exists k :: 0 <= k < |c| && l in c[k].lessons {
          var k :| 0 <= k < |c[1..]| && l in c[1..][k].lessons;
          assert c[k + 1] == c[1..][k];
        }
      }
      c[0].lessons + rest
  }

  /** The lessons of two catalogs placed one after the other are those of the first, then those of
      the second; a one-topic catalog lists that topic's lessons. Together these fix the order. */
  lemma {:induction false} AllLessonsAppend(a: Content.Catalog, b: Content.Catalog)
    ensures AllLessons(a + b) == AllLessons(a) + AllLessons(b)
    ensures forall t :: AllLessons([t]) == t.lessons
    decreases |a|
  {
    forall t ensures AllLessons([t]) == t.lessons {
      assert [t][1..] == [];
    }
    if a == [] {
      assert a + b == b;
    } else {
      assert (a + b)[0] == a[0] && (a + b)[1..] == a[1..] + b;
      AllLessonsAppend(a[1..], b);
    }
  }

  /** The ids of a list of lessons, in order. */
  function LessonIds(ls: seq<Lesson>): (ids: seq<string>)
    ensures |ids| == |ls|
    ensures forall i :: 0 <= i < |ls| ==> ids[i] == ls[i].id
  {
    if ls == [] then [] else [ls[0].id] + LessonIds(ls[1..])
  }

  /** A non-empty lesson ends with an outtro slide and has no other outtro. */
  predicate EndsWithSingleOuttro(l: Lesson)
  {
    |l.slides| > 0 ==>
      && l.slides[|l.slides| - 1].kind == "outtro"
      && forall i :: 0 <= i < |l.slides| - 1 ==> l.slides[i].kind != "outtro"
  }

  /** Every slide has a known type, and every interactive slide names a registered mini-game. */
  predicate SlidesKnown(l: Lesson)
  {
    forall i :: 0 <= i < |l.slides| ==>
      && l.slides[i].kind in SlideKinds
      && (l.slides[i].kind == "interactive" ==> InteractiveSlide.Lookup(l.slides[i].variant).Some?)
  }

  predicate WellFormed(l: Lesson)
  {
    EndsWithSingleOuttro(l) && SlidesKnown(l)
  }

  lemma AllLessonsOfCatalog()
    ensures AllLessons(LessonCatalog) == [ChLesson1, ChLesson2, PhishingLesson1, WifiLesson1, CryptoLesson1]
  {
    var c := LessonCatalog;
    assert AllLessons(c[5..]) == [];
    assert AllLessons(c[4..]) == [] by { assert c[4..][1..] == c[5..]; }
    assert AllLessons(c[3..]) == [CryptoLesson1] by { assert c[3..][1..] == c[4..]; }
    assert AllLessons(c[2..]) == [WifiLesson1, CryptoLesson1] by { assert c[2..][1..] == c[3..]; }
    assert AllLessons(c[1..]) == [PhishingLesson1, WifiLesson1, CryptoLesson1] by { assert c[1..][1..] == c[2..]; }
  }

  /** The lesson ids of the whole catalog, topic by topic. */
  lemma CatalogLessonIds()
    ensures LessonIds(AllLessons(LessonCatalog)) ==
            ["ch-lesson-1", "ch-lesson-2", "lesson-1", "wifi-lesson-1", "crypto-lesson-1"]
    ensures NoDup(LessonIds(AllLessons(LessonCatalog)))
    ensures |AllLessons(LessonCatalog)| == 5
  {
    AllLessonsOfCatalog();
  }

  /** Every lesson of the catalog is well formed: one outtro, last; known slide types; and every
      interactive slide names one of the six registered mini-games. */
  lemma CatalogWellFormed()
    ensures forall l :: l in AllLessons(LessonCatalog) ==> WellFormed(l)
  {
    AllLessonsOfCatalog();
    ChLesson1WellFormed();
    ChLesson2WellFormed();
    PhishingLesson1WellFormed();
    WifiLesson1WellFormed();
    CryptoLesson1WellFormed();
  }

  lemma ChLesson1WellFormed() ensures WellFormed(ChLesson1) {}
  lemma ChLesson2WellFormed() ensures WellFormed(ChLesson2) {}
  lemma PhishingLesson1WellFormed() ensures WellFormed(PhishingLesson1) {}
  lemma WifiLesson1WellFormed() ensures WellFormed(WifiLesson1) {}
  lemma CryptoLesson1WellFormed() ensures WellFormed(CryptoLesson1) {}

  /** The topic keys are distinct, so `LESSONS[topicId]` is unambiguous. */
  lemma CatalogTopicIds()
    ensures TopicIds(LessonCatalog) == ["cyber-hygiene", "phishing", "safe-wifi", "crypto-safety", "digital-footprint"]
    ensures NoDup(TopicIds(LessonCatalog))
  {
  }

  /** Slide ids are only unique within a lesson: "slide-1" opens every non-empty lesson. */
  lemma SlideIdsRepeat()
    ensures ChLesson1.slides[0].id == PhishingLesson1.slides[0].id == WifiLesson1.slides[0].id
            == CryptoLesson1.slides[0].id == "slide-1"
  {
  }

  /** `ch-lesson-2` is listed under "cyber-hygiene" with an empty slide list. */
  lemma EmptyLesson()
    ensures LessonsOf(LessonCatalog, "cyber-hygiene") == Some([ChLesson1, ChLesson2])
    ensures FindLesson([ChLesson1, ChLesson2], "ch-lesson-2") == Some(ChLesson2)
    ensures ChLesson2.slides == []
  {
    assert FindLesson([ChLesson1, ChLesson2][1..], "ch-lesson-2") == Some(ChLesson2);
  }

  /** The "digital-footprint" topic has an entry with no lessons. */
  lemma EmptyTopic()
    ensures LessonsOf(LessonCatalog, "digital-footprint") == Some([])
  {
    var c := LessonCatalog;
    assert LessonsOf(c[4..], "digital-footprint") == Some([]);
    assert LessonsOf(c[3..], "digital-footprint") == Some([]) by { assert c[3..][1..] == c[4..]; }
    assert LessonsOf(c[2..], "digital-footprint") == Some([]) by { assert c[2..][1..] == c[3..]; }
    assert LessonsOf(c[1..], "digital-footprint") == Some([]) by { assert c[1..][1..] == c[2..]; }
  }
}
