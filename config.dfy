/** The static configuration of the interview: the script sent as system prompt, the
    reserved codes with their closing messages (a dictionary filled once, whose insertion
    order matters), the generation parameters, the login switch and the data directories. */
module Config {

  import opened Wrappers
  import opened Text

  // The prompt texts are written as concatenations of short literals (at most forty
  // characters each); the concatenation is the text itself.

  /** The interview outline, the first part of the system prompt. */
  const INTERVIEW_OUTLINE: string :=
    "\n" +
    "شما یک مصاحبه‌گر حرفه‌ای در حوزه " +
    "جامعه‌شناسی علم و فناوری هستید. در این " +
    "مصاحبه قصد دارید دیدگاه‌های افراد عادی " +
    "را درباره استفاده از هوش مصنوعی و درک " +
    "آن‌ها از تأثیرات اجتماعی، اخلاقی و " +
    "اعتماد عمومی نسبت به آن بررسی کنید.\n" +
    "\n" +
    "لطفاً در گفتگو از زبان ساده استفاده " +
    "کنید و به هیچ عنوان واژه‌های پیچیده یا " +
    "تخصصی مانند \"مشروعیت\" را به‌کار نبرید. " +
    "مصاحبه را با این جمله شروع کنید:\n" +
    "\n" +
    "«سلام! خیلی ممنون که وقت گذاشتید. دوست " +
    "دارم درباره تجربه‌ها و دیدگاه‌تون نسبت " +
    "به هوش مصنوعی صحبت کنیم. تا حالا در " +
    "زندگی‌تون با AI برخورد داشتید؟»\n" +
    "\n" +
    "در ادامه، با استفاده از سوالات زیر (یا " +
    "مشابه آن‌ها) به آرامی ابعاد مختلف را " +
    "بررسی کنید:\n" +
    "- احساس شما نسبت به استفاده از AI در " +
    "جاهای مختلف (مثل مدرسه، بانک، " +
    "بیمارستان) چیست؟\n" +
    "- آیا فکر می‌کنید مردم به AI اعتماد " +
    "دارند؟ شما چطور؟\n" +
    "- استفاده از AI در تصمیم‌گیری‌هایی مثل " +
    "استخدام یا وام‌دادن را چطور می‌بینید؟\n" +
    "- آیا نگران هستید که AI به‌جای انسان " +
    "تصمیم بگیرد؟\n" +
    "- فکر می‌کنید دولت یا سازمان‌ها باید " +
    "نظارت خاصی روی AI داشته باشند؟\n" +
    "- اگر روزی بفهمید یک تصمیم درباره شما " +
    "را AI گرفته، دوست دارید بدانید چرا؟"

  /** The general instructions, the second part of the system prompt. */
  const GENERAL_INSTRUCTIONS: string :=
    "دستورالعمل کلی:\n" +
    "\n" +
    "- از کلمه مشروعیت استفاده نکن.\n" +
    "- مصاحبه را به صورت غیرهدایتی و " +
    "بی‌طرفانه پیش ببرید و اجازه دهید فرد " +
    "موضوعات مرتبط را مطرح کند. حتماً سوالات " +
    "تکمیلی برای روشن شدن موارد مبهم بپرسید " +
    "و عمیق‌تر بررسی کنید. مثال‌هایی از " +
    "سوالات تکمیلی: «می‌توانید کمی بیشتر " +
    "توضیح دهید؟»، «چرا این موضوع برای شما " +
    "اهمیت دارد؟»، «ممکن است مثالی بزنید؟».- " +
    "اجازه بده فرد با مثال‌های زندگی واقعی " +
    "پاسخ دهد.\n" +
    "- از فرد بخواهید برای بیان بهتر تجربیات " +
    "خود مثال‌هایی مشخص ارائه دهد. از " +
    "کلی‌گویی اجتناب کنید.\n" +
    "- سوالات را بی‌طرف، باز و بدون قضاوت " +
    "مطرح کن.\n" +
    "- سعی کنید بفهمید فرد چگونه به دنیا " +
    "نگاه می‌کند و چه دلایلی برای دیدگاهش " +
    "دارد. بررسی کنید این دیدگاه‌ها چقدر " +
    "منسجم و منطقی هستند.\n" +
    "- در هر نوبت فقط یک سوال بپرسید.\n" +
    "- از بحث‌های نامرتبط پرهیز کنید و گفتگو " +
    "را به هدف اصلی مصاحبه بازگردانید."

  /** The reserved codes the model is told to answer with. */
  const CODE_PROBLEMATIC: string := "5j3k"
  const CODE_END: string := "x7y8"

  /** The code instructions, the last part of the system prompt. Each sentence that names
      a code keeps the quoted code as a piece of its own. */
  const CODES_INTRO: string :=
    "Codes:\n" +
    "\n" +
    "\n" +
    "Lastly, there are specific codes that " +
    "must be used exclusively in designated " +
    "situations. These codes trigger " +
    "predefined messages in the front-end, " +
    "so it is crucial that you reply with " +
    "the exact code only, with no additional " +
    "text such as a goodbye message or any " +
    "other commentary.\n" +
    "\n"
  const CODES_PROBLEMATIC_LEAD: string :=
    "Problematic content: If the respondent " +
    "writes legally or ethically problematic " +
    "content, please reply with exactly the "
  const CODES_PROBLEMATIC: string :=
    CODES_PROBLEMATIC_LEAD + "code '5j3k'" +
    " and no other text.\n\n"
  const CODES_END_LEAD: string :=
    "End of the interview: When you have " +
    "asked all questions from the Interview " +
    "Outline, or when the respondent does " +
    "not want to continue the interview, " +
    "please reply with exactly the "
  const CODES_END: string :=
    CODES_END_LEAD + "code 'x7y8'" +
    " and no other text."
  const CODES: string := CODES_INTRO + CODES_PROBLEMATIC + CODES_END

  /** The closing messages, written in pieces of at most forty characters so that each
      piece can be inspected character by character. */
  const CLOSING_PROBLEMATIC: string :=
    "Thank you for participating, " + "the interview concludes here."
  const CLOSING_END_1: string := "Thank you for participating in the "
  const CLOSING_END_2: string := "interview, this was the last question. "
  const CLOSING_END_3: string := "Please continue with the remaining "
  const CLOSING_END_4: string := "sections in the survey part. Many "
  const CLOSING_END_5: string := "thanks for your answers and time to "
  const CLOSING_END_6: string := "help with this research project!"
  const CLOSING_END: string :=
    CLOSING_END_1 + CLOSING_END_2 + CLOSING_END_3 + CLOSING_END_4 + CLOSING_END_5 + CLOSING_END_6

  /** The code-to-message dictionary as its entries in insertion order. */
  const CLOSING_MESSAGES: seq<(string, string)> :=
    [(CODE_PROBLEMATIC, CLOSING_PROBLEMATIC), (CODE_END, CLOSING_END)]

  /** Outline, instructions and code instructions, separated by two blank lines. */
  function ComposePrompt(outline: string, instructions: string, codes: string): string
  {
    outline + "\n\n\n" + instructions + "\n\n\n" + codes
  }

  const SYSTEM_PROMPT: string := ComposePrompt(INTERVIEW_OUTLINE, GENERAL_INSTRUCTIONS, CODES)

  const MODEL: string := "gpt-4o-2024-05-13"
  /** `None` selects the backend's own default temperature. */
  const TEMPERATURE: Option<real> := None
  const MAX_OUTPUT_TOKENS: nat := 2048

  /** Whether respondents log in; without logins every respondent is the test account. */
  const LOGINS: bool := false

  const TRANSCRIPTS_DIRECTORY: string := "../data/transcripts/"
  const TIMES_DIRECTORY: string := "../data/times/"
  const BACKUPS_DIRECTORY: string := "../data/backups/"

  /** Python's `any(code in text for code in CLOSING_MESSAGES)`: some reserved code is a
      substring of `text`. */
  predicate HasCode(text: string)
  {
    exists k | 0 <= k < |CLOSING_MESSAGES| :: Contains(text, CLOSING_MESSAGES[k].0)
  }

  /** The dictionary holds exactly the two codes, problematic first, each four characters. */
  lemma ClosingTable()
    ensures |CLOSING_MESSAGES| == 2
    ensures CLOSING_MESSAGES[0] == ("5j3k", CLOSING_PROBLEMATIC)
    ensures CLOSING_MESSAGES[1] == ("x7y8", CLOSING_END)
    ensures forall k | 0 <= k < |CLOSING_MESSAGES| :: |CLOSING_MESSAGES[k].0| == 4
  {
  }

  /** A text without the characters '3' and '7' holds neither code. */
  predicate LacksCodeDigits(text: string)
  {
    '3' !in text && '7' !in text
  }

  lemma NoCodeWithoutCodeDigits(text: string)
    requires LacksCodeDigits(text)
    ensures !HasCode(text)
  {
    if HasCode(text) {
      var k :| 0 <= k < |CLOSING_MESSAGES| && Contains(text, CLOSING_MESSAGES[k].0);
      if k == 0 {
        ContainsHasChar(text, CODE_PROBLEMATIC, 2);
      } else {
        ContainsHasChar(text, CODE_END, 1);
      }
    }
  }

  lemma ConcatLacksCodeDigits(a: string, b: string)
    requires LacksCodeDigits(a) && LacksCodeDigits(b)
    ensures LacksCodeDigits(a + b)
  {
  }

  lemma ClosingEnd1LacksCodeDigits()
    ensures LacksCodeDigits(CLOSING_END_1)
  {
  }

  lemma ClosingEnd2LacksCodeDigits()
    ensures LacksCodeDigits(CLOSING_END_2)
  {
  }

  lemma ClosingEnd3LacksCodeDigits()
    ensures LacksCodeDigits(CLOSING_END_3)
  {
  }

  lemma ClosingEnd4LacksCodeDigits()
    ensures LacksCodeDigits(CLOSING_END_4)
  {
  }

  lemma ClosingEnd5LacksCodeDigits()
    ensures LacksCodeDigits(CLOSING_END_5)
  {
  }

  lemma ClosingEnd6LacksCodeDigits()
    ensures LacksCodeDigits(CLOSING_END_6)
  {
  }

  /** No closing message contains a code, so an appended closing message is never
      hidden from the replayed chat. */
  lemma ClosingMessagesHaveNoCode()
    ensures forall k | 0 <= k < |CLOSING_MESSAGES| :: !HasCode(CLOSING_MESSAGES[k].1)
  {
    assert LacksCodeDigits(CLOSING_PROBLEMATIC);
    NoCodeWithoutCodeDigits(CLOSING_PROBLEMATIC);
    ClosingEnd1LacksCodeDigits();
    ClosingEnd2LacksCodeDigits();
    ClosingEnd3LacksCodeDigits();
    ClosingEnd4LacksCodeDigits();
    ClosingEnd5LacksCodeDigits();
    ClosingEnd6LacksCodeDigits();
    ConcatLacksCodeDigits(CLOSING_END_1, CLOSING_END_2);
    ConcatLacksCodeDigits(CLOSING_END_1 + CLOSING_END_2, CLOSING_END_3);
    ConcatLacksCodeDigits(CLOSING_END_1 + CLOSING_END_2 + CLOSING_END_3, CLOSING_END_4);
    ConcatLacksCodeDigits(CLOSING_END_1 + CLOSING_END_2 + CLOSING_END_3 + CLOSING_END_4, CLOSING_END_5);
    ConcatLacksCodeDigits(CLOSING_END_1 + CLOSING_END_2 + CLOSING_END_3 + CLOSING_END_4 + CLOSING_END_5, CLOSING_END_6);
    NoCodeWithoutCodeDigits(CLOSING_END);
  }

  /** The code instructions name both codes, whatever text precedes them. */
  lemma CodesNamedAfter(head: string)
    ensures Contains(head + CODES, CODE_PROBLEMATIC) && Contains(head + CODES, CODE_END)
  {
    var p1, p2 := CODES_PROBLEMATIC_LEAD, CODES_END_LEAD;
    assert OccursAt("code '5j3k'", CODE_PROBLEMATIC, 6);
    ContainsRight(p1, "code '5j3k'", CODE_PROBLEMATIC);
    ContainsLeft(p1 + "code '5j3k'", " and no other text.\n\n", CODE_PROBLEMATIC);
    ContainsRight(CODES_INTRO, CODES_PROBLEMATIC, CODE_PROBLEMATIC);
    ContainsLeft(CODES_INTRO + CODES_PROBLEMATIC, CODES_END, CODE_PROBLEMATIC);
    ContainsRight(head, CODES, CODE_PROBLEMATIC);
    assert OccursAt("code 'x7y8'", CODE_END, 6);
    ContainsRight(p2, "code 'x7y8'", CODE_END);
    ContainsLeft(p2 + "code 'x7y8'", " and no other text.", CODE_END);
    ContainsRight(CODES_INTRO + CODES_PROBLEMATIC, CODES_END, CODE_END);
    ContainsRight(head, CODES, CODE_END);
  }

  /** A prompt composed with the code instructions names both codes, whatever the outline
      and the instructions say. */
  lemma ComposedPromptHasBothCodes(outline: string, instructions: string)
    ensures Contains(ComposePrompt(outline, instructions, CODES), CODE_PROBLEMATIC)
    ensures Contains(ComposePrompt(outline, instructions, CODES), CODE_END)
    ensures HasCode(ComposePrompt(outline, instructions, CODES))
  {
    var prompt := ComposePrompt(outline, instructions, CODES);
    CodesNamedAfter(outline + "\n\n\n" + instructions + "\n\n\n");
    assert Contains(prompt, CLOSING_MESSAGES[0].0);
  }

  /** The system prompt names both codes: it is hidden from the replayed chat only
      because the replay starts after the first message. */
  lemma SystemPromptHasBothCodes()
    ensures Contains(SYSTEM_PROMPT, CODE_PROBLEMATIC) && Contains(SYSTEM_PROMPT, CODE_END)
    ensures HasCode(SYSTEM_PROMPT)
  {
    ComposedPromptHasBothCodes(INTERVIEW_OUTLINE, GENERAL_INSTRUCTIONS);
  }
}
