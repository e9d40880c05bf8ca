/** The question-generation service: the prompt built from the form, the
    one request sent to the text-generation provider, and how the reply or
    failure is handed back to the caller. The provider call itself is an
    input: its reply is a parameter. */
module Gemini {
  import opened Optional
  import opened FormTypes

  /** `additionalRequirements || 'Không có'`: the empty string is falsy. */
  function OrNone(s: string): string {
    if s == "" then "Không có" else s
  }

  /** The answer rule; the literals are split only to keep lines short. */
  function AnswerClause(includeAnswers: bool): string {
    if includeAnswers then
      "Với mỗi câu hỏi, hãy cung cấp đáp án"
      + " và lời giải chi tiết, dễ hiểu cho học sinh."
    else
      "Chỉ cung cấp câu hỏi, không kèm đáp án hay lời giải."
  }

  /** The LaTeX rule. */
  function LatexClause(useLatex: bool): string {
    if useLatex then
      "Sử dụng LaTeX cho tất cả các công thức và biểu thức toán học."
      + " Ví dụ, với phép tính đặt theo cột dọc, hãy định dạng nó bằng"
      + " môi trường \\begin{array}{r} ... \\end{array} của LaTeX."
      + " Bao quanh tất cả các biểu thức LaTeX bằng dấu đô la đơn ($) hoặc kép ($$)."
    else
      "Không sử dụng định dạng LaTeX."
  }

  /** The prompt template up to and including the fixed Markdown rule:
      the introduction, the nine labelled lines and the rules heading, line
      by line as the template literal lays them out (four spaces of
      indentation). */
  function Preamble(f: FormData): string {
    "\n    Bạn là một chuyên gia tạo tài liệu giáo dục cho học sinh tiểu học tại Việt Nam."
    + "\n    Hãy tạo một bộ câu hỏi dựa trên các tiêu chí sau đây. Phải trả lời bằng tiếng Việt."
    + "\n"
    + "\n    - Môn học: " + f.subject
    + "\n    - Lớp: " + f.grade
    + "\n    - Loại câu hỏi: " + f.questionType
    + "\n    - Số lượng: " + f.quantity
    + "\n    - Mức độ: " + f.difficulty
    + "\n    - Chủ đề: " + f.topic
    + "\n    - Loại bài tập: " + f.exerciseType
    + "\n    - Phong cách: " + f.tone
    + "\n    - Yêu cầu bổ sung: " + OrNone(f.additionalRequirements)
    + "\n"
    + "\n    QUY TẮC ĐỊNH DẠNG:"
    + "\n    - " + MarkdownRule
  }

  /** The closing line, and the last line of two spaces before the
      template literal ends. */
  const Closing := "\n    Bắt đầu tạo câu hỏi." + "\n  "

  /** What follows the LaTeX rule: an empty line, then the closing. */
  const Tail := "\n" + Closing

  /** The whole prompt: the preamble, the two flag-dependent rules, and the
      tail. */
  function BuildPrompt(f: FormData): string {
    Preamble(f)
    + "\n    - " + AnswerClause(f.includeAnswers)
    + "\n    - " + LatexClause(f.useLatex)
    + Tail
  }

  // A second, table-driven description of the same prompt: an introduction,
  // one bullet per labelled field in a fixed order, a rules heading, one
  // bullet per formatting rule, and a closing line.

  const Intro := "\n    Bạn là một chuyên gia tạo tài liệu giáo dục cho học sinh tiểu học tại Việt Nam." + "\n    Hãy tạo một bộ câu hỏi dựa trên các tiêu chí sau đây. Phải trả lời bằng tiếng Việt." + "\n" + "\n"
  const RulesHeading := "\n    QUY TẮC ĐỊNH DẠNG:" + "\n"
  const MarkdownRule := "Bắt buộc trả về kết quả ở định dạng Markdown."

  /** The field labels, in the order the prompt lists them. */
  const FieldLabels: seq<string> := ["Môn học", "Lớp", "Loại câu hỏi", "Số lượng", "Mức độ", "Chủ đề", "Loại bài tập", "Phong cách", "Yêu cầu bổ sung"]

  /** The value printed after each label, in the same order. */
  function FieldValues(f: FormData): seq<string> {
    [f.subject, f.grade, f.questionType, f.quantity, f.difficulty, f.topic,
     f.exerciseType, f.tone, OrNone(f.additionalRequirements)]
  }

  function Bullet(item: string): string {
    "    - " + item + "\n"
  }

  function Bullets(items: seq<string>): string {
    if items == [] then "" else Bullets(items[..|items| - 1]) + Bullet(items[|items| - 1])
  }

  function Labelled(labels: seq<string>, values: seq<string>): (items: seq<string>)
    requires |labels| == |values|
    ensures |items| == |labels|
    ensures forall i :: 0 <= i < |items| ==> items[i] == labels[i] + ": " + values[i]
  {
    if labels == [] then [] else [labels[0] + ": " + values[0]] + Labelled(labels[1..], values[1..])
  }

  function RuleItems(f: FormData): seq<string> {
    [MarkdownRule, AnswerClause(f.includeAnswers), LatexClause(f.useLatex)]
  }

  function TablePrompt(f: FormData): string {
    Intro + Bullets(Labelled(FieldLabels, FieldValues(f))) + RulesHeading + Bullets(RuleItems(f)) + Closing
  }

  /** Unfolding `Bullets` on a prefix one item at a time. */
  lemma BulletsStep(items: seq<string>, k: nat)
    requires 0 < k <= |items|
    ensures Bullets(items[..k]) == Bullets(items[..k - 1]) + Bullet(items[k - 1])
  {
    assert items[..k][..k - 1] == items[..k - 1];
  }

  lemma {:induction false} BulletsAppend(xs: seq<string>, ys: seq<string>)
    ensures Bullets(xs + ys) == Bullets(xs) + Bullets(ys)
  {
    if ys == [] {
      assert xs + ys == xs;
    } else {
      var init := ys[..|ys| - 1];
      assert (xs + ys)[..|xs + ys| - 1] == xs + init;
      assert (xs + ys)[|xs + ys| - 1] == ys[|ys| - 1];
      BulletsAppend(xs, init);
    }
  }

  lemma BulletsOfNine(items: seq<string>)
    requires |items| == 9
    ensures Bullets(items) == Bullet(items[0]) + Bullet(items[1]) + Bullet(items[2]) + Bullet(items[3])
      + Bullet(items[4]) + Bullet(items[5]) + Bullet(items[6]) + Bullet(items[7]) + Bullet(items[8])
  {
    var first, middle, last := items[..3], items[3..6], items[6..];
    assert items == first + middle + last;
    BulletsAppend(first + middle, last);
    BulletsAppend(first, middle);
    BulletsOfThree(first);
    BulletsOfThree(middle);
    BulletsOfThree(last);
    Regroup3(Bullets(first), Bullet(items[3]), Bullet(items[4]), Bullet(items[5]));
    Regroup3(Bullets(first + middle), Bullet(items[6]), Bullet(items[7]), Bullet(items[8]));
  }

  lemma BulletsOfThree(items: seq<string>)
    requires |items| == 3
    ensures Bullets(items) == Bullet(items[0]) + Bullet(items[1]) + Bullet(items[2])
  {
    assert Bullets(items[..0]) == "";
    BulletsStep(items, 1);
    assert Bullets(items[..1]) == Bullet(items[0]);
    BulletsStep(items, 2);
    BulletsStep(items, 3);
    assert items[..3] == items;
  }

  lemma Regroup9(pre: string, s0: string, s1: string, s2: string, s3: string, s4: string,
                 s5: string, s6: string, s7: string, s8: string)
    ensures pre + (s0 + s1 + s2 + s3 + s4 + s5 + s6 + s7 + s8)
         == pre + s0 + s1 + s2 + s3 + s4 + s5 + s6 + s7 + s8
  {
  }

  lemma Regroup3(pre: string, s0: string, s1: string, s2: string)
    ensures pre + (s0 + s1 + s2) == pre + s0 + s1 + s2
  {
  }

  /** One template line, written with its newline in front, matches one
      bullet, written with its newline at the end. */
  lemma BulletStep(b: string, t: string, piece: string, value: string, item: string)
    requires b + "\n" == t
    requires piece + value == "\n" + "    - " + item
    ensures b + piece + value + "\n" == t + Bullet(item)
  {
    assert b + piece + value == b + (piece + value);
  }

  /** The same, for a labelled line. */
  lemma FieldStep(b: string, t: string, piece: string, heading: string, value: string)
    requires b + "\n" == t
    requires piece == "\n" + "    - " + heading + ": "
    ensures b + piece + value + "\n" == t + Bullet(heading + ": " + value)
  {
    BulletStep(b, t, piece, value, heading + ": " + value);
  }

  /** The same, for a rule line whose text is inserted after the bullet. */
  lemma ClauseStep(b: string, t: string, item: string)
    requires b + "\n" == t
    ensures b + "\n    - " + item + "\n" == t + Bullet(item)
  {
    BulletStep(b, t, "\n    - ", item, item);
  }

  /** Each labelled template line opens with a bullet, the label and a colon. */
  lemma FieldPiecesFirst()
    ensures "\n    - Môn học: " == "\n" + "    - " + FieldLabels[0] + ": "
    ensures "\n    - Lớp: " == "\n" + "    - " + FieldLabels[1] + ": "
    ensures "\n    - Loại câu hỏi: " == "\n" + "    - " + FieldLabels[2] + ": "
  {
  }

  lemma FieldPiecesSecond()
    ensures "\n    - Số lượng: " == "\n" + "    - " + FieldLabels[3] + ": "
    ensures "\n    - Mức độ: " == "\n" + "    - " + FieldLabels[4] + ": "
    ensures "\n    - Chủ đề: " == "\n" + "    - " + FieldLabels[5] + ": "
  {
  }

  lemma FieldPiecesThird()
    ensures "\n    - Loại bài tập: " == "\n" + "    - " + FieldLabels[6] + ": "
    ensures "\n    - Phong cách: " == "\n" + "    - " + FieldLabels[7] + ": "
    ensures "\n    - Yêu cầu bổ sung: " == "\n" + "    - " + FieldLabels[8] + ": "
  {
  }

  /** The introduction and the nine labelled lines of the template are the
      introduction and the nine bullets of the table. */
  lemma FieldsLayout(f: FormData)
    ensures "\n    Bạn là một chuyên gia tạo tài liệu giáo dục cho học sinh tiểu học tại Việt Nam."
      + "\n    Hãy tạo một bộ câu hỏi dựa trên các tiêu chí sau đây. Phải trả lời bằng tiếng Việt."
      + "\n"
      + "\n    - Môn học: " + f.subject
      + "\n    - Lớp: " + f.grade
      + "\n    - Loại câu hỏi: " + f.questionType
      + "\n    - Số lượng: " + f.quantity
      + "\n    - Mức độ: " + f.difficulty
      + "\n    - Chủ đề: " + f.topic
      + "\n    - Loại bài tập: " + f.exerciseType
      + "\n    - Phong cách: " + f.tone
      + "\n    - Yêu cầu bổ sung: " + OrNone(f.additionalRequirements)
      + "\n" == Intro + Bullets(Labelled(FieldLabels, FieldValues(f)))
  {
    FieldPiecesFirst();
    FieldPiecesSecond();
    FieldPiecesThird();
    var items := Labelled(FieldLabels, FieldValues(f));
    BulletsOfNine(items);
    Regroup9(Intro, Bullet(items[0]), Bullet(items[1]), Bullet(items[2]), Bullet(items[3]),
      Bullet(items[4]), Bullet(items[5]), Bullet(items[6]), Bullet(items[7]), Bullet(items[8]));
    assert items == [
      FieldLabels[0] + ": " + f.subject, FieldLabels[1] + ": " + f.grade,
      FieldLabels[2] + ": " + f.questionType, FieldLabels[3] + ": " + f.quantity,
      FieldLabels[4] + ": " + f.difficulty, FieldLabels[5] + ": " + f.topic,
      FieldLabels[6] + ": " + f.exerciseType, FieldLabels[7] + ": " + f.tone,
      FieldLabels[8] + ": " + OrNone(f.additionalRequirements)];
    var b := "\n    Bạn là một chuyên gia tạo tài liệu giáo dục cho học sinh tiểu học tại Việt Nam."
      + "\n    Hãy tạo một bộ câu hỏi dựa trên các tiêu chí sau đây. Phải trả lời bằng tiếng Việt."
      + "\n";
    var t := Intro;
    FieldStep(b, t, "\n    - Môn học: ", FieldLabels[0], f.subject);
    b, t := b + "\n    - Môn học: " + f.subject, t + Bullet(FieldLabels[0] + ": " + f.subject);
    FieldStep(b, t, "\n    - Lớp: ", FieldLabels[1], f.grade);
    b, t := b + "\n    - Lớp: " + f.grade, t + Bullet(FieldLabels[1] + ": " + f.grade);
    FieldStep(b, t, "\n    - Loại câu hỏi: ", FieldLabels[2], f.questionType);
    b, t := b + "\n    - Loại câu hỏi: " + f.questionType, t + Bullet(FieldLabels[2] + ": " + f.questionType);
    FieldStep(b, t, "\n    - Số lượng: ", FieldLabels[3], f.quantity);
    b, t := b + "\n    - Số lượng: " + f.quantity, t + Bullet(FieldLabels[3] + ": " + f.quantity);
    FieldStep(b, t, "\n    - Mức độ: ", FieldLabels[4], f.difficulty);
    b, t := b + "\n    - Mức độ: " + f.difficulty, t + Bullet(FieldLabels[4] + ": " + f.difficulty);
    FieldStep(b, t, "\n    - Chủ đề: ", FieldLabels[5], f.topic);
    b, t := b + "\n    - Chủ đề: " + f.topic, t + Bullet(FieldLabels[5] + ": " + f.topic);
    FieldStep(b, t, "\n    - Loại bài tập: ", FieldLabels[6], f.exerciseType);
    b, t := b + "\n    - Loại bài tập: " + f.exerciseType, t + Bullet(FieldLabels[6] + ": " + f.exerciseType);
    FieldStep(b, t, "\n    - Phong cách: ", FieldLabels[7], f.tone);
    b, t := b + "\n    - Phong cách: " + f.tone, t + Bullet(FieldLabels[7] + ": " + f.tone);
    FieldStep(b, t, "\n    - Yêu cầu bổ sung: ", FieldLabels[8], OrNone(f.additionalRequirements));
    b, t := b + "\n    - Yêu cầu bổ sung: " + OrNone(f.additionalRequirements), t + Bullet(FieldLabels[8] + ": " + OrNone(f.additionalRequirements));
  }

  /** The template is exactly the table-driven layout: the introduction, the
      nine labelled bullets in their fixed order, the rules heading, the
      three rule bullets, and the closing line. */
  lemma PromptLayout(f: FormData)
    ensures BuildPrompt(f) == TablePrompt(f)
  {
    var b := "\n    Bạn là một chuyên gia tạo tài liệu giáo dục cho học sinh tiểu học tại Việt Nam."
      + "\n    Hãy tạo một bộ câu hỏi dựa trên các tiêu chí sau đây. Phải trả lời bằng tiếng Việt."
      + "\n"
      + "\n    - Môn học: " + f.subject
      + "\n    - Lớp: " + f.grade
      + "\n    - Loại câu hỏi: " + f.questionType
      + "\n    - Số lượng: " + f.quantity
      + "\n    - Mức độ: " + f.difficulty
      + "\n    - Chủ đề: " + f.topic
      + "\n    - Loại bài tập: " + f.exerciseType
      + "\n    - Phong cách: " + f.tone
      + "\n    - Yêu cầu bổ sung: " + OrNone(f.additionalRequirements);
    var t := Intro + Bullets(Labelled(FieldLabels, FieldValues(f)));
    FieldsLayout(f);
    var rules := RuleItems(f);
    BulletsOfThree(rules);
    Regroup3(t + RulesHeading, Bullet(rules[0]), Bullet(rules[1]), Bullet(rules[2]));
    b, t := b + "\n" + "\n    QUY TẮC ĐỊNH DẠNG:", t + RulesHeading;
    ClauseStep(b, t, rules[0]);
    b, t := b + "\n    - " + MarkdownRule, t + Bullet(rules[0]);
    assert b == Preamble(f);
    ClauseStep(b, t, rules[1]);
    b, t := b + "\n    - " + AnswerClause(f.includeAnswers), t + Bullet(rules[1]);
    ClauseStep(b, t, rules[2]);
    b, t := b + "\n    - " + LatexClause(f.useLatex), t + Bullet(rules[2]);
  }

  /** The character two places before the end of a clause, counted back
      from the end of everything that follows it. */
  lemma CharBeforeEnd(x: string, c: string, rest: string)
    requires |c| >= 2
    ensures (x + c + rest)[|x + c + rest| - |rest| - 2] == c[|c| - 2]
  {
    assert x + c + rest == (x + c) + rest;
    assert (x + c)[|x + c| - 2] == c[|c| - 2];
  }

  /** Where the two flag-dependent clauses differ: one character before
      their final full stop. */
  lemma ClauseEndings()
    ensures LatexClause(true)[|LatexClause(true)| - 2] == ')'
    ensures LatexClause(false)[|LatexClause(false)| - 2] == 'X'
    ensures AnswerClause(true)[|AnswerClause(true)| - 2] == 'h'
    ensures AnswerClause(false)[|AnswerClause(false)| - 2] == 'i'
  {
  }


  /** The prompt ends with the two flag-dependent rules and the tail. */
  lemma PromptEnd(f: FormData)
    ensures BuildPrompt(f) ==
      Preamble(f) + "\n    - " + AnswerClause(f.includeAnswers) + "\n    - " + LatexClause(f.useLatex) + Tail
  {
  }

  /** Counted from the end, the LaTeX clause is followed only by the tail. */
  lemma LatexClauseAt(x: string, useLatex: bool)
    ensures var p := x + LatexClause(useLatex) + Tail;
      p[|p| - |Tail| - 2] == LatexClause(useLatex)[|LatexClause(useLatex)| - 2]
  {
    CharBeforeEnd(x, LatexClause(useLatex), Tail);
  }

  /** Counted from the end, the answer clause is followed by one bullet,
      the LaTeX clause and the tail. */
  lemma AnswerClauseAt(x: string, includeAnswers: bool, useLatex: bool)
    ensures var p := x + AnswerClause(includeAnswers) + "\n    - " + LatexClause(useLatex) + Tail;
      p[|p| - |Tail| - |LatexClause(useLatex)| - 7 - 2]
        == AnswerClause(includeAnswers)[|AnswerClause(includeAnswers)| - 2]
  {
    var rest := "\n    - " + LatexClause(useLatex) + Tail;
    CharBeforeEnd(x, AnswerClause(includeAnswers), rest);
    Regroup3(x + AnswerClause(includeAnswers), "\n    - ", LatexClause(useLatex), Tail);
  }

  lemma LatexFlagOfEnding(x: string, y: string, l1: bool, l2: bool)
    requires x + LatexClause(l1) + Tail == y + LatexClause(l2) + Tail
    ensures l1 == l2
  {
    ClauseEndings();
    LatexClauseAt(x, l1);
    LatexClauseAt(y, l2);
  }

  lemma AnswerFlagOfEnding(x: string, y: string, a1: bool, a2: bool, l: bool)
    requires x + AnswerClause(a1) + "\n    - " + LatexClause(l) + Tail
          == y + AnswerClause(a2) + "\n    - " + LatexClause(l) + Tail
    ensures a1 == a2
  {
    ClauseEndings();
    AnswerClauseAt(x, a1, l);
    AnswerClauseAt(y, a2, l);
  }

  /** Two prompt endings that agree carry the same two flags. */
  lemma EndingDeterminesFlags(x: string, y: string, a1: bool, l1: bool, a2: bool, l2: bool)
    requires x + "\n    - " + AnswerClause(a1) + "\n    - " + LatexClause(l1) + Tail
          == y + "\n    - " + AnswerClause(a2) + "\n    - " + LatexClause(l2) + Tail
    ensures a1 == a2 && l1 == l2
  {
    LatexFlagOfEnding(x + "\n    - " + AnswerClause(a1) + "\n    - ", y + "\n    - " + AnswerClause(a2) + "\n    - ", l1, l2);
    AnswerFlagOfEnding(x + "\n    - ", y + "\n    - ", a1, a2, l1);
  }

  /** The two flags can be read back from the prompt: the LaTeX clause ends
      in "($$)." or "LaTeX.", and the answer clause in "học sinh." or
      "lời giải.". */
  lemma PromptDeterminesFlags(f: FormData, g: FormData)
    requires BuildPrompt(f) == BuildPrompt(g)
    ensures f.includeAnswers == g.includeAnswers
    ensures f.useLatex == g.useLatex
  {
    PromptEnd(f);
    PromptEnd(g);
    EndingDeterminesFlags(Preamble(f), Preamble(g), f.includeAnswers, f.useLatex, g.includeAnswers, g.useLatex);
  }

  /** The part of the prompt before the additional-requirements value. */
  function BeforeRequirements(f: FormData): string {
    "\n    Bạn là một chuyên gia tạo tài liệu giáo dục cho học sinh tiểu học tại Việt Nam."
    + "\n    Hãy tạo một bộ câu hỏi dựa trên các tiêu chí sau đây. Phải trả lời bằng tiếng Việt."
    + "\n"
    + "\n    - Môn học: " + f.subject
    + "\n    - Lớp: " + f.grade
    + "\n    - Loại câu hỏi: " + f.questionType
    + "\n    - Số lượng: " + f.quantity
    + "\n    - Mức độ: " + f.difficulty
    + "\n    - Chủ đề: " + f.topic
    + "\n    - Loại bài tập: " + f.exerciseType
    + "\n    - Phong cách: " + f.tone
    + "\n    - Yêu cầu bổ sung: "
  }

  /** The part of the prompt after it, which depends on the flags only. */
  function AfterRequirements(includeAnswers: bool, useLatex: bool): string {
    "\n" + "\n    QUY TẮC ĐỊNH DẠNG:" + "\n    - " + MarkdownRule
    + "\n    - " + AnswerClause(includeAnswers)
    + "\n    - " + LatexClause(useLatex)
    + Tail
  }

  lemma Regroup11(x: string, m: string, s1: string, s2: string, s3: string, s4: string, s5: string,
                  s6: string, s7: string, s8: string, s9: string)
    ensures x + m + s1 + s2 + s3 + s4 + s5 + s6 + s7 + s8 + s9
         == x + m + (s1 + s2 + s3 + s4 + s5 + s6 + s7 + s8 + s9)
  {
  }

  lemma AroundRequirements(f: FormData)
    ensures BuildPrompt(f) ==
      BeforeRequirements(f) + OrNone(f.additionalRequirements) + AfterRequirements(f.includeAnswers, f.useLatex)
  {
    Regroup11(BeforeRequirements(f), OrNone(f.additionalRequirements),
      "\n", "\n    QUY TẮC ĐỊNH DẠNG:", "\n    - ", MarkdownRule,
      "\n    - ", AnswerClause(f.includeAnswers), "\n    - ", LatexClause(f.useLatex), Tail);
  }

  lemma MiddleCancels(x: string, m1: string, m2: string, z: string)
    requires x + m1 + z == x + m2 + z
    ensures m1 == m2
  {
    assert |m1| == |m2|;
    assert m1 == (x + m1 + z)[|x|..|x| + |m1|];
    assert m2 == (x + m2 + z)[|x|..|x| + |m2|];
  }

  /** A non-empty additional requirement is inserted verbatim: two forms
      that differ only there, in two non-empty values, give different
      prompts. */
  lemma RequirementsVerbatim(f: FormData, a: string, b: string)
    requires a != "" && b != ""
    requires BuildPrompt(f.(additionalRequirements := a)) == BuildPrompt(f.(additionalRequirements := b))
    ensures a == b
  {
    AroundRequirements(f.(additionalRequirements := a));
    AroundRequirements(f.(additionalRequirements := b));
    MiddleCancels(BeforeRequirements(f), a, b, AfterRequirements(f.includeAnswers, f.useLatex));
  }

  /** An empty additional requirement is written as "Không có", so the two
      give the same prompt. */
  lemma EmptyRequirementsReadAsNone(f: FormData)
    ensures BuildPrompt(f.(additionalRequirements := "")) == BuildPrompt(f.(additionalRequirements := "Không có"))
  {
    AroundRequirements(f.(additionalRequirements := ""));
    AroundRequirements(f.(additionalRequirements := "Không có"));
  }

  // The service around the template: loading the module, the request sent,
  // and how the provider's reply is handed back.

  const ModelName := "gemini-2.5-flash"
  const MissingKeyMessage := "API_KEY environment variable is not set."
  const FailureMessage := "Failed to generate questions. Please check the API configuration and try again."

  /** The client built when the module loads, holding the configured key. */
  datatype Service = Service(apiKey: string)

  /** Loading the module with the environment's `API_KEY` (absent, or a
      string): a falsy key throws before any client exists. */
  function LoadService(apiKey: Option<string>): (r: Result<Service, string>)
    ensures r.Ok? <==> apiKey.Some? && apiKey.value != ""
    ensures r.Ok? ==> r.value.apiKey == apiKey.value
    ensures r.Err? ==> r.error == MissingKeyMessage
  {
    if apiKey.Some? && apiKey.value != "" then Ok(Service(apiKey.value)) else Err(MissingKeyMessage)
  }

  /** What `generateContent` is asked for. */
  datatype Request = Request(model: string, contents: string)

  function RequestFor(f: FormData): Request {
    Request(ModelName, BuildPrompt(f))
  }

  /** The provider's side of the one awaited call: the response text, or a
      failure of any kind (network, key, quota, refusal). */
  datatype ProviderReply = Answered(text: string) | ProviderFailed(reason: string)

  /** What a rejected promise carries: an `Error` with its message, or some
      other thrown value. */
  datatype Thrown = ErrorObject(message: string) | NonError

  /** How the promise returned by `generateQuestions` settles. */
  datatype Settled = Resolved(text: string) | Rejected(thrown: Thrown)

  /** `generateQuestions`, given the provider's reply to `RequestFor(f)`:
      the text is passed through unchanged, and every failure is replaced
      by the one fixed error, whatever its reason. */
  function GenerateQuestions(service: Service, f: FormData, reply: ProviderReply): (r: Settled)
    ensures r.Resolved? <==> reply.Answered?
    ensures reply.Answered? ==> r.text == reply.text
    ensures r.Rejected? ==> r.thrown == ErrorObject(FailureMessage)
  {
    match reply
    case Answered(text) => Resolved(text)
    case ProviderFailed(_) => Rejected(ErrorObject(FailureMessage))
  }

  /** The caller cannot tell two failures apart, nor which form caused them. */
  lemma FailuresIndistinguishable(s1: Service, s2: Service, f: FormData, g: FormData, why1: string, why2: string)
    ensures GenerateQuestions(s1, f, ProviderFailed(why1)) == GenerateQuestions(s2, g, ProviderFailed(why2))
  {
  }
}
