/**
 * The virtual assistant: a first-match keyword router over the lower-cased
 * question, and the chat state that a send and its delayed reply update.
 */
module AIAssistant {
  import opened Text

  /** The canned answers, one per keyword group, plus the fallback. */
  datatype Topic =
    | Medication | Pressure | Tests | Sleep | Exercise | Headache
    | Diet | Weight | Prognosis | Doctors | Thanks | Greeting | Fallback

  /** The keyword groups in the order they are tried; the first that fires wins. */
  const Rules: seq<Rule<Topic>> := [
    Rule(["лекарств", "таблетк", "принимать"], Medication),
    Rule(["давлени", "120", "140"], Pressure),
    Rule(["анализ", "тест", "результат"], Tests),
    Rule(["сон", "сплю", "бессонниц"], Sleep),
    Rule(["спорт", "упражнени", "физическ"], Exercise),
    Rule(["голов", "боль", "болит"], Headache),
    Rule(["диета", "питани", "еда"], Diet),
    Rule(["вес", "похудеть", "килограмм"], Weight),
    Rule(["прогноз", "будущее", "выздоров"], Prognosis),
    Rule(["врач", "доктор", "специалист"], Doctors),
    Rule(["спасибо", "благодар"], Thanks),
    Rule(["привет", "здравств"], Greeting)
  ]

  /**
   * The topic `getAssistantResponse` answers `message` with: the first group
   * with a keyword inside the lower-cased message, or `Fallback` when none is.
   */
  function Route(message: string): (t: Topic)
    ensures t == Fallback <==> NoneFires(Lower(message), Rules)
    ensures forall i :: FirstToFire(Lower(message), Rules, i) ==> t == Rules[i].outcome
  {
    NoGroupFallsBack();
    Dispatch(Lower(message), Rules, Fallback)
  }

  /** Every keyword group has an answer of its own: none of them is the fallback. */
  lemma NoGroupFallsBack()
    ensures forall i :: 0 <= i < |Rules| ==> Rules[i].outcome != Fallback
  {
  }

  /** `getAssistantResponse`: total, and a function of the routed topic alone. */
  function Response(message: string): (r: string)
    ensures r == FallbackReply <==> NoneFires(Lower(message), Rules)
  {
    Reply(Route(message))
  }

  /** Each topic has its own answer: only the fallback topic gives the fallback text. */
  function Reply(t: Topic): (r: string)
    ensures r == FallbackReply <==> t == Fallback
  {
    match t
    case Medication => MedicationReply
    case Pressure => PressureReply
    case Tests => TestsReply
    case Sleep => SleepReply
    case Exercise => ExerciseReply
    case Headache => HeadacheReply
    case Diet => DietReply
    case Weight => WeightReply
    case Prognosis => PrognosisReply
    case Doctors => DoctorsReply
    case Thanks => ThanksReply
    case Greeting => GreetingReply
    case Fallback => FallbackReply
  }

  const MedicationReply := "По вашему расписанию на сегодня:\n\n• Аспирин 100 мг в 09:00 (уже принят ✓)\n• Метформин 500 мг в 14:00 (осталось принять)\n• Лизиноприл 10 мг в 21:00 (осталось принять)\n\nВажно принимать лекарства строго по времени для лучшего эффекта. Хотите установить напоминания?"
  const PressureReply := "По последней записи в дневнике:\n\n📊 Давление: 120/80 мм рт.ст.\n🌡️ Температура: 36.6°C\n❤️ Пульс: 72 уд/мин\n\nВаши показатели в норме! Продолжайте контролировать давление утром и вечером. При показателях выше 140/90 обратитесь к кардиологу."
  const TestsReply := "Ваши последние анализы:\n\n✓ Общий анализ крови (15 ноя) - Норма\n⏳ Биохимический анализ (10 ноя) - Ожидание результатов\n✓ ЭКГ (5 ноя) - Норма\n\nВсе показатели в пределах нормы. Биохимический анализ будет готов в течение 2-3 дней. Хотите, чтобы я уведомил вас?"
  const SleepReply := "Для улучшения сна рекомендую:\n\n🌙 Ложиться в одно время (до 23:00)\n📱 Убрать гаджеты за час до сна\n☕ Избегать кофеина после 16:00\n🚶 Прогулка на свежем воздухе вечером\n🛏️ Проветривать комнату перед сном\n\nПо вашим данным, вы спите в среднем 7.5 часов - это хороший показатель. Есть проблемы с засыпанием?"
  const ExerciseReply := "С учетом вашего состояния (гипертензия под контролем) рекомендую:\n\n✅ Разрешено:\n• Ходьба 30-60 минут в день\n• Плавание\n• Легкая йога\n• Велосипед в умеренном темпе\n\n⚠️ С осторожностью:\n• Интенсивные кардио\n• Тяжелая атлетика\n• Резкие нагрузки\n\nНачните с 10000 шагов в день. Контролируйте пульс - он не должен превышать 120 уд/мин."
  const HeadacheReply := "При головной боли важно:\n\n1️⃣ Измерить давление (возможная причина)\n2️⃣ Если давление в норме - выпить воды\n3️⃣ Проветрить помещение\n4️⃣ Прилечь в темной комнате на 15-20 минут\n\n⚠️ Обратитесь к врачу, если:\n• Боль очень сильная или внезапная\n• Сопровождается тошнотой/рвотой\n• Давление выше 140/90\n• Боль не проходит более 2 часов\n\nВы принимаете Аспирин, который может помочь при умеренной боли."
  const DietReply := "Рекомендации по питанию для вас:\n\n✅ Включить в рацион:\n• Овощи и фрукты (5 порций в день)\n• Цельнозерновые продукты\n• Нежирная рыба 2-3 раза в неделю\n• Орехи (горсть в день)\n\n❌ Ограничить:\n• Соль (до 5г в день)\n• Сахар и сладости\n• Жареное и копченое\n• Алкоголь\n\nВы записываете приемы пищи в дневнике - это отлично помогает контролировать питание!"
  const WeightReply := "Ваши данные:\n📊 Текущий вес: 80 кг\n📏 Рост: 175 см\n📈 ИМТ: 26.1 (небольшой избыток веса)\n\nРекомендуемая цель: снижение на 5-7% (4-6 кг за 3-6 месяцев)\n\nЭто поможет:\n• Улучшить контроль давления\n• Снизить риск диабета\n• Уменьшить нагрузку на сердце\n\nДостижимо через питание и 10000 шагов в день!"
  const PrognosisReply := "По вашим данным прогноз благоприятный! 🎯\n\n✨ При соблюдении текущей терапии:\n• 75% вероятность стабилизации давления\n• 65% вероятность предотвращения диабета\n• Снижение рисков осложнений\n\nВы на правильном пути:\n✓ Регулярно принимаете лекарства\n✓ Контролируете показатели\n✓ Ведете дневник здоровья\n\nПродолжайте в том же духе! Подробнее смотрите в разделе \"Прогноз\"."
  const DoctorsReply := "Ваши специалисты:\n\n👨‍⚕️ Кардиолог - Доктор Иванов А.П.\n   Последний визит: 20 ноя\n   Следующий прием: рекомендован через 1 месяц\n\n👩‍⚕️ Эндокринолог - Доктор Петрова Е.С.\n   Последний визит: 18 ноя\n   Контроль глюкозы: каждые 3 месяца\n\nЕсть вопрос к конкретному специалисту?"
  const ThanksReply := "Пожалуйста! Рад помочь! 😊 Если появятся еще вопросы - обращайтесь в любое время. Забота о здоровье - это важно!"
  const GreetingReply := "Здравствуйте! Рад снова вас видеть! Как вы себя чувствуете сегодня? Могу помочь с информацией о лекарствах, анализах или дать рекомендации по здоровью."
  const FallbackReply := "Я анализирую ваш вопрос... 🤔\n\nМогу помочь с информацией о:\n• Лекарствах и времени приема\n• Показателях здоровья\n• Результатах анализов\n• Рекомендациях по питанию и активности\n• Прогнозе состояния\n\nУточните, пожалуйста, что именно вас интересует?"

  /** Routing ignores case: a message and its lower-cased form get the same answer. */
  lemma RouteIgnoresCase(message: string)
    ensures Route(Lower(message)) == Route(message)
  {
    LowerIdempotent(message);
  }

  /**
   * Order is the only tie-break: a medication keyword wins over every other
   * group, pressure keywords included.
   */
  lemma MedicationWins(message: string)
    requires Contains(Lower(message), "лекарств")
    ensures Route(message) == Medication
  {
    assert Rules[0].keywords[0] == "лекарств";
    assert Fires(Lower(message), Rules[0]);
  }

  /** The six suggested questions offered under the chat, in display order. */
  const QuickQuestions: seq<string> := [
    "Когда принимать лекарства?",
    "Какое у меня давление сегодня?",
    "Что значат мои анализы?",
    "Как улучшить сон?",
    "Можно ли мне заниматься спортом?",
    "Что делать при головной боли?"
  ]

  /** Each suggested question gets its own answer, never the fallback. */
  lemma QuickQuestionsRouted()
    ensures Route(QuickQuestions[0]) == Medication
    ensures Route(QuickQuestions[1]) == Pressure
    ensures Route(QuickQuestions[2]) == Tests
    ensures Route(QuickQuestions[3]) == Sleep
    ensures Route(QuickQuestions[4]) == Exercise
    ensures Route(QuickQuestions[5]) == Headache
  {
    QuickQuestionMedication();
    QuickQuestionPressure();
    QuickQuestionTests();
    QuickQuestionSleep();
    QuickQuestionExercise();
    QuickQuestionHeadache();
  }

  lemma QuickQuestionMedication()
    ensures Route(QuickQuestions[0]) == Medication
  {
    var text := "когда принимать лекарства?";
    LowerMedicationQuestion(QuickQuestions[0]);
    assert OccursAt(text, Rules[0].keywords[0], 16);
  }

  lemma LowerMedicationQuestion(q: string)
    requires q == "Когда принимать лекарства?"
    ensures Lower(q) == "когда принимать лекарства?"
  {
  }

  lemma QuickQuestionPressure()
    ensures Route(QuickQuestions[1]) == Pressure
  {
    var text := "какое у меня давление сегодня?";
    LowerPressureQuestion(QuickQuestions[1]);
    QuietPressure0(text);
    assert OccursAt(text, Rules[1].keywords[0], 13);
  }

  lemma LowerPressureQuestion(q: string)
    requires q == "Какое у меня давление сегодня?"
    ensures Lower(q) == "какое у меня давление сегодня?"
  {
  }

  lemma QuietPressure0(text: string)
    requires text == "какое у меня давление сегодня?"
    ensures !Fires(text, Rules[0])
  {
    SilentRule(text, Rules[0]);
  }

  lemma QuickQuestionTests()
    ensures Route(QuickQuestions[2]) == Tests
  {
    var text := "что значат мои анализы?";
    LowerTestsQuestion(QuickQuestions[2]);
    QuietTests0(text);
    QuietTests1(text);
    assert OccursAt(text, Rules[2].keywords[0], 15);
  }

  lemma LowerTestsQuestion(q: string)
    requires q == "Что значат мои анализы?"
    ensures Lower(q) == "что значат мои анализы?"
  {
  }

  lemma QuietTests0(text: string)
    requires text == "что значат мои анализы?"
    ensures !Fires(text, Rules[0])
  {
    SilentRule(text, Rules[0]);
  }

  lemma QuietTests1(text: string)
    requires text == "что значат мои анализы?"
    ensures !Fires(text, Rules[1])
  {
    SilentRule(text, Rules[1]);
  }

  lemma QuickQuestionSleep()
    ensures Route(QuickQuestions[3]) == Sleep
  {
    var text := "как улучшить сон?";
    LowerSleepQuestion(QuickQuestions[3]);
    QuietSleep0(text);
    QuietSleep1(text);
    QuietSleep2(text);
    assert OccursAt(text, Rules[3].keywords[0], 13);
  }

  lemma LowerSleepQuestion(q: string)
    requires q == "Как улучшить сон?"
    ensures Lower(q) == "как улучшить сон?"
  {
  }

  lemma QuietSleep0(text: string)
    requires text == "как улучшить сон?"
    ensures !Fires(text, Rules[0])
  {
    SilentRule(text, Rules[0]);
  }

  lemma QuietSleep1(text: string)
    requires text == "как улучшить сон?"
    ensures !Fires(text, Rules[1])
  {
    SilentRule(text, Rules[1]);
  }

  lemma QuietSleep2(text: string)
    requires text == "как улучшить сон?"
    ensures !Fires(text, Rules[2])
  {
    SilentRule(text, Rules[2]);
  }

  lemma QuickQuestionExercise()
    ensures Route(QuickQuestions[4]) == Exercise
  {
    var text := "можно ли мне заниматься спортом?";
    LowerExerciseQuestion(QuickQuestions[4]);
    QuietExercise0(text);
    QuietExercise1(text);
    QuietExercise2(text);
    QuietExercise3(text);
    assert OccursAt(text, Rules[4].keywords[0], 24);
  }

  lemma LowerExerciseQuestion(q: string)
    requires q == "Можно ли мне заниматься спортом?"
    ensures Lower(q) == "можно ли мне заниматься спортом?"
  {
  }

  lemma QuietExercise0(text: string)
    requires text == "можно ли мне заниматься спортом?"
    ensures !Fires(text, Rules[0])
  {
    SilentRule(text, Rules[0]);
  }

  lemma QuietExercise1(text: string)
    requires text == "можно ли мне заниматься спортом?"
    ensures !Fires(text, Rules[1])
  {
    SilentRule(text, Rules[1]);
  }

  lemma QuietExercise2(text: string)
    requires text == "можно ли мне заниматься спортом?"
    ensures !Fires(text, Rules[2])
  {
    SilentRule(text, Rules[2]);
  }

  lemma QuietExercise3(text: string)
    requires text == "можно ли мне заниматься спортом?"
    ensures !Fires(text, Rules[3])
  {
    SilentRule(text, Rules[3]);
  }

  lemma QuickQuestionHeadache()
    ensures Route(QuickQuestions[5]) == Headache
  {
    var text := "что делать при головной боли?";
    LowerHeadacheQuestion(QuickQuestions[5]);
    QuietHeadache0(text);
    QuietHeadache1(text);
    QuietHeadache2(text);
    QuietHeadache3(text);
    QuietHeadache4(text);
    assert OccursAt(text, Rules[5].keywords[0], 15);
  }

  lemma LowerHeadacheQuestion(q: string)
    requires q == "Что делать при головной боли?"
    ensures Lower(q) == "что делать при головной боли?"
  {
  }

  lemma QuietHeadache0(text: string)
    requires text == "что делать при головной боли?"
    ensures !Fires(text, Rules[0])
  {
    SilentRule(text, Rules[0]);
  }

  lemma QuietHeadache1(text: string)
    requires text == "что делать при головной боли?"
    ensures !Fires(text, Rules[1])
  {
    SilentRule(text, Rules[1]);
  }

  lemma QuietHeadache2(text: string)
    requires text == "что делать при головной боли?"
    ensures !Fires(text, Rules[2])
  {
    SilentRule(text, Rules[2]);
  }

  lemma QuietHeadache3(text: string)
    requires text == "что делать при головной боли?"
    ensures !Fires(text, Rules[3])
  {
    SilentRule(text, Rules[3]);
  }

  lemma QuietHeadache4(text: string)
    requires text == "что делать при головной боли?"
    ensures !Fires(text, Rules[4])
  {
    SilentRule(text, Rules[4]);
  }

  /** Matching is by substring: "голов" inside "головной" selects the headache answer. */
  lemma HeadacheBySubstring()
    ensures Route("Головной") == Headache
  {
    var text := "головной";
    assert Lower("Головной") == text;
    QuietWord0(text);
    QuietWord1(text);
    assert OccursAt(text, Rules[5].keywords[0], 0);
  }

  lemma QuietWord0(text: string)
    requires text == "головной"
    ensures !Fires(text, Rules[0]) && !Fires(text, Rules[1]) && !Fires(text, Rules[2])
  {
    SilentRule(text, Rules[0]);
    SilentRule(text, Rules[1]);
    SilentRule(text, Rules[2]);
  }

  lemma QuietWord1(text: string)
    requires text == "головной"
    ensures !Fires(text, Rules[3]) && !Fires(text, Rules[4])
  {
    SilentRule(text, Rules[3]);
    SilentRule(text, Rules[4]);
  }

  datatype Role = User | Assistant

  /** A chat message; the timestamp is not modelled. */
  datatype Message = Message(id: string, role: Role, content: string)

  const Welcome := Message("1", Assistant, "Здравствуйте! Я ваш виртуальный медицинский ассистент. Могу ответить на вопросы о вашем здоровье, лекарствах, анализах и дать рекомендации. Чем могу помочь?")

  /**
   * The chat component's state. `pending` holds, oldest first, the texts
   * whose reply timer has been started and has not fired yet: each send
   * starts one timer with the same delay, so the timers fire in send order.
   */
  class Chat {
    var messages: seq<Message>
    var input: string
    var typing: bool
    var pending: seq<string>

    constructor ()
      ensures messages == [Welcome] && input == "" && !typing && pending == []
    {
      messages := [Welcome];
      input := "";
      typing := false;
      pending := [];
    }

    /** The input's `onChange`, and `handleQuickQuestion`, which fills it with a suggestion. */
    method SetInput(text: string)
      modifies this
      ensures input == text
      ensures messages == old(messages) && typing == old(typing) && pending == old(pending)
    {
      input := text;
    }

    /**
     * `handleSend`: a blank input changes nothing; otherwise the typed text
     * is appended as a user message after the existing ones, the input is
     * cleared, the typing indicator comes on and a reply is scheduled.
     * `id` stands for `Date.now()`.
     */
    method Send(id: string)
      modifies this
      ensures IsBlank(old(input)) ==>
                messages == old(messages) && input == old(input) && typing == old(typing) && pending == old(pending)
      ensures !IsBlank(old(input)) ==>
                && messages == old(messages) + [Message(id, User, old(input))]
                && input == ""
                && typing
                && pending == old(pending) + [old(input)]
    {
      if IsBlank(input) {
        return;
      }
      messages := messages + [Message(id, User, input)];
      pending := pending + [input];
      input := "";
      typing := true;
    }

    /** `handleKeyPress`: Enter without Shift sends. */
    method KeyPress(key: string, shift: bool, id: string)
      modifies this
      ensures key == "Enter" && !shift && !IsBlank(old(input)) ==>
                && messages == old(messages) + [Message(id, User, old(input))]
                && input == ""
                && typing
                && pending == old(pending) + [old(input)]
      ensures !(key == "Enter" && !shift) || IsBlank(old(input)) ==>
                messages == old(messages) && input == old(input) && typing == old(typing) && pending == old(pending)
    {
      if key == "Enter" && !shift {
        Send(id);
      }
    }

    /**
     * The timer callback of the oldest send: it appends exactly one assistant
     * message, the routed answer to the text that was sent (not to the
     * current input), after whatever is there now, and turns typing off.
     */
    method DeliverReply(id: string)
      requires pending != []
      modifies this
      ensures messages == old(messages) + [Message(id, Assistant, Response(old(pending)[0]))]
      ensures !typing
      ensures pending == old(pending)[1..] && input == old(input)
    {
      var answer := Response(pending[0]);
      messages := messages + [Message(id, Assistant, answer)];
      pending := pending[1..];
      typing := false;
    }
  }
}
