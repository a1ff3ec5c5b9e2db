/**
 * The report prompt the `/generate` handler sends upstream: the "MM월 DD일"
 * date text, the greeting (from the teacher or from the academy), the score
 * and weak-score renderings, and the fixed prompt template the request
 * fields are interpolated into.
 */
module ReportPrompt {
  import opened Wrappers
  import opened JsValues

  // ---------------------------------------------------------------------
  // Request fields

  /** The twelve fields the handler takes out of the request body. */
  datatype Fields = Fields(
    name: JsValue, className: JsValue, progress: JsValue, homework: JsValue,
    testRange: JsValue, score: JsValue, weakScore: JsValue, extraRequest: JsValue,
    teacherName: JsValue, attendance: JsValue, attitude: JsValue, homeworkStatus: JsValue)

  /** A property of the body, `undefined` when the body does not have it. */
  function Lookup(body: map<string, JsValue>, key: string): JsValue
  {
    if key in body then body[key] else Undefined
  }

  /** The destructuring of `req.body` at the top of the handler. */
  function Destructure(body: map<string, JsValue>): Fields
  {
    Fields(
      Lookup(body, "name"), Lookup(body, "className"), Lookup(body, "progress"),
      Lookup(body, "homework"), Lookup(body, "testRange"), Lookup(body, "score"),
      Lookup(body, "weakScore"), Lookup(body, "extraRequest"), Lookup(body, "teacherName"),
      Lookup(body, "attendance"), Lookup(body, "attitude"), Lookup(body, "homeworkStatus"))
  }

  // ---------------------------------------------------------------------
  // Date text

  /** The reading of `new Date()` the handler uses: `getMonth()`, which
      counts months from 0, and `getDate()`, the day of the month. */
  datatype Clock = Clock(monthIndex: nat, date: nat)

  /** The range a JavaScript `Date` gives for both readings. */
  predicate ValidClock(c: Clock)
  {
    c.monthIndex < 12 && 1 <= c.date <= 31
  }

  /** `String(n).padStart(2, '0')`. */
  function Pad2(n: nat): string
  {
    PadStart(NatToString(n), 2, '0')
  }

  /** Below 100 the padded text has exactly two digits and reads back as `n`. */
  lemma Pad2TwoDigits(n: nat)
    requires n < 100
    ensures |Pad2(n)| == 2 && AllDigits(Pad2(n)) && DigitsValue(Pad2(n)) == n
  {
    var s := NatToString(n);
    NatToStringValue(n);
    NatToStringLength(n);
    if |s| == 1 {
      assert Pad2(n) == "0" + s;
      LeadingZeroValue(s);
    }
  }

  /** Below 100 the padded text is two characters long. */
  lemma Pad2Length(n: nat)
    requires n < 100
    ensures |Pad2(n)| == 2
  {
    NatToStringLength(n);
  }

  /** `${month}월 ${day}일` where month is `getMonth() + 1`. */
  function DateText(c: Clock): string
  {
    Pad2(c.monthIndex + 1) + "월 " + Pad2(c.date) + "일"
  }

  /** Where the parts of a date text with two-character month and day sit. */
  lemma DateTextSlices(m: string, d: string)
    requires |m| == 2 && |d| == 2
    ensures var t := m + "월 " + d + "일";
      |t| == 7 && t[..2] == m && t[2..4] == "월 " && t[4..6] == d && t[6..] == "일"
  {
  }

  /** For every date a clock can show, the date text is seven characters:
      the two-digit month `getMonth() + 1`, "월 ", the two-digit day, "일". */
  lemma DateTextLayout(c: Clock)
    requires ValidClock(c)
    ensures var t := DateText(c);
      && |t| == 7
      && t[..2] == Pad2(c.monthIndex + 1) && t[2..4] == "월 "
      && t[4..6] == Pad2(c.date) && t[6..] == "일"
  {
    Pad2Length(c.monthIndex + 1);
    Pad2Length(c.date);
    DateTextSlices(Pad2(c.monthIndex + 1), Pad2(c.date));
  }

  /** Reads a date text back: the month index and the day its digits name. */
  function ParseDateText(t: string): Option<Clock>
  {
    if |t| == 7 && AllDigits(t[..2]) && t[2..4] == "월 " && AllDigits(t[4..6]) && t[6..] == "일"
       && DigitsValue(t[..2]) >= 1
    then Some(Clock(DigitsValue(t[..2]) - 1, DigitsValue(t[4..6])))
    else None
  }

  /** Reading the date text back gives the clock reading it was made from. */
  lemma DateTextRoundTrip(c: Clock)
    requires ValidClock(c)
    ensures ParseDateText(DateText(c)) == Some(c)
  {
    var m, d := Pad2(c.monthIndex + 1), Pad2(c.date);
    Pad2TwoDigits(c.monthIndex + 1);
    Pad2TwoDigits(c.date);
    DateTextLayout(c);
    var t := DateText(c);
    assert DigitsValue(t[..2]) == DigitsValue(m);
    assert DigitsValue(t[4..6]) == DigitsValue(d);
  }

  /** Different dates give different date texts. */
  lemma DateTextInjective(c1: Clock, c2: Clock)
    requires ValidClock(c1) && ValidClock(c2)
    requires DateText(c1) == DateText(c2)
    ensures c1 == c2
  {
    DateTextRoundTrip(c1);
    DateTextRoundTrip(c2);
  }

  // ---------------------------------------------------------------------
  // Greeting

  /** Who the greeting speaks for. */
  datatype Salutation = FromTeacher(teacher: string) | FromAcademy

  /** The one way building the prompt can fail: `teacherName.trim()` on a
      truthy value that is not a string throws a TypeError. */
  datatype BuildError = TrimNotAFunction

  /** `teacherName && teacherName.trim() !== ''` as the branch it selects. */
  function SelectSalutation(teacherName: JsValue): Result<Salutation, BuildError>
  {
    if !Truthy(teacherName) then Success(FromAcademy)
    else match teacherName
      case Str(s) => if Trim(s) != "" then Success(FromTeacher(s)) else Success(FromAcademy)
      case _ => Failure(TrimNotAFunction)
  }

  /** The teacher branch is taken exactly when `teacherName` is a string
      with a non-white-space character, and then speaks for that string;
      the selection fails exactly for truthy values that are not strings. */
  lemma SelectSalutationCases(t: JsValue)
    ensures SelectSalutation(t) == Success(FromAcademy) <==> !Truthy(t) || (t.Str? && Blank(t.s))
    ensures SelectSalutation(t).Success? && SelectSalutation(t).value.FromTeacher?
        <==> t.Str? && !Blank(t.s)
    ensures SelectSalutation(t).Success? && SelectSalutation(t).value.FromTeacher?
        ==> SelectSalutation(t).value.teacher == t.s
    ensures SelectSalutation(t).Failure? <==> Truthy(t) && !t.Str?
  {
    if t.Str? {
      TrimEmptyIffBlank(t.s);
      assert t.s == "" ==> Blank(t.s);
    }
  }

  /** The fixed pieces of the two greeting sentences. */
  const Hello: string := "안녕하세요. "
  const ClassSuffix: string := "반 "
  const TeacherIntro: string := "학생을 지도하고 있는 고수학 학원 "
  const TeacherSuffix: string := " 선생님 입니다. "
  const AcademyHello: string := "안녕하세요. 고수학 학원 입니다. "
  const StudentSuffix: string := "학생의 "
  const ReportSuffix: string := " 데일리 리포트 입니다."

  /** The strings of `ps`, one after the other. */
  function Concat(ps: seq<string>): string
  {
    if ps == [] then "" else ps[0] + Concat(ps[1..])
  }

  /** The greeting sentence for a salutation, class name, student name and
      date text, as the concatenation of its pieces. */
  function GreetingPieces(sal: Salutation, className: string, name: string, dateText: string): seq<string>
  {
    match sal
    case FromTeacher(teacher) =>
      [Hello, className, ClassSuffix, name, TeacherIntro, teacher, TeacherSuffix, dateText, ReportSuffix]
    case FromAcademy =>
      [AcademyHello, className, ClassSuffix, name, StudentSuffix, dateText, ReportSuffix]
  }

  function GreetingText(sal: Salutation, className: string, name: string, dateText: string): string
  {
    Concat(GreetingPieces(sal, className, name, dateText))
  }

  /** `needle` stands in `hay` from offset `i` on. */
  predicate OccursAt(needle: string, hay: string, i: nat)
  {
    i + |needle| <= |hay| && hay[i..i + |needle|] == needle
  }

  /** `needle` is a contiguous part of `hay`. */
  predicate Occurs(needle: string, hay: string)
  {
    exists i: nat | i <= |hay| :: OccursAt(needle, hay, i)
  }

  /** Where piece `k` starts in `Concat(ps)`. */
  function PieceStart(ps: seq<string>, k: nat): nat
    requires k <= |ps|
  {
    if k == 0 then 0 else |ps[0]| + PieceStart(ps[1..], k - 1)
  }

  /** Every piece stands at its start offset in the concatenation. */
  lemma {:induction false} ConcatHasPiece(ps: seq<string>, k: nat)
    requires k < |ps|
    ensures OccursAt(ps[k], Concat(ps), PieceStart(ps, k))
  {
    var whole, rest := Concat(ps), Concat(ps[1..]);
    assert whole == ps[0] + rest;
    if k > 0 {
      ConcatHasPiece(ps[1..], k - 1);
      var i := PieceStart(ps[1..], k - 1);
      assert whole[|ps[0]| + i..|ps[0]| + i + |ps[k]|] == rest[i..i + |ps[k]|];
    }
  }

  /** Both greetings name the class, the student and the date; the teacher
      greeting also names the teacher. */
  lemma GreetingMentions(sal: Salutation, className: string, name: string, dateText: string)
    ensures var g := GreetingText(sal, className, name, dateText);
      && Occurs(className, g) && Occurs(name, g) && Occurs(dateText, g)
      && (sal.FromTeacher? ==> Occurs(sal.teacher, g))
  {
    var ps := GreetingPieces(sal, className, name, dateText);
    ConcatHasPiece(ps, 1);
    ConcatHasPiece(ps, 3);
    if sal.FromTeacher? {
      ConcatHasPiece(ps, 5);
      ConcatHasPiece(ps, 7);
    } else {
      ConcatHasPiece(ps, 5);
    }
  }

  /** The greeting of a request: the selected salutation, rendered with the
      request's class and student name. */
  function Greeting(f: Fields, dateText: string): Result<string, BuildError>
  {
    match SelectSalutation(f.teacherName)
    case Failure(e) => Failure(e)
    case Success(sal) => Success(GreetingText(sal, Render(f.className), Render(f.name), dateText))
  }

  /** When the academy greets, `teacherName` has no influence on the text. */
  lemma AcademyGreetingIgnoresTeacher(f1: Fields, f2: Fields, dateText: string)
    requires f1.(teacherName := Undefined) == f2.(teacherName := Undefined)
    requires SelectSalutation(f1.teacherName) == Success(FromAcademy)
    requires SelectSalutation(f2.teacherName) == Success(FromAcademy)
    ensures Greeting(f1, dateText) == Greeting(f2, dateText)
  {
    assert f1.className == f2.className && f1.name == f2.name;
  }

  // ---------------------------------------------------------------------
  // Score lines

  /** `score ? score + '점' : '미응시'`. */
  function ScoreText(score: JsValue): string
  {
    if Truthy(score) then Render(score) + "점" else "미응시"
  }

  /** `weakScore ? weakScore + '점' : '없음'`. */
  function WeakScoreText(weakScore: JsValue): string
  {
    if Truthy(weakScore) then Render(weakScore) + "점" else "없음"
  }

  /** The score reads "not taken" exactly when the value is falsy, so 0 and
      the empty string count as not taken; otherwise it is the rendered value
      followed by "점". */
  lemma ScoreTextMeaning(v: JsValue)
    ensures ScoreText(v) == "미응시" <==> !Truthy(v)
    ensures Truthy(v) ==> |ScoreText(v)| >= 1 && ScoreText(v)[..|ScoreText(v)| - 1] == Render(v)
                          && ScoreText(v)[|ScoreText(v)| - 1] == '점'
    ensures ScoreText(Number(0)) == "미응시" && ScoreText(Str("")) == "미응시"
  {
    if Truthy(v) {
      var t := ScoreText(v);
      assert t[|t| - 1] == '점' != "미응시"[2];
    }
  }

  /** The weak score reads "none" exactly when the value is falsy. */
  lemma WeakScoreTextMeaning(v: JsValue)
    ensures WeakScoreText(v) == "없음" <==> !Truthy(v)
    ensures Truthy(v) ==> |WeakScoreText(v)| >= 1 && WeakScoreText(v)[..|WeakScoreText(v)| - 1] == Render(v)
                          && WeakScoreText(v)[|WeakScoreText(v)| - 1] == '점'
    ensures WeakScoreText(Number(0)) == "없음" && WeakScoreText(Str("")) == "없음"
  {
    if Truthy(v) {
      var t := WeakScoreText(v);
      assert t[|t| - 1] == '점' != "없음"[1];
    }
  }

  /** A string "0" is truthy in JavaScript, so it reads as a score of zero
      while the number 0 reads as not taken. */
  lemma ScoreTextZeroString()
    ensures ScoreText(Str("0")) == "0점"
    ensures ScoreText(Number(0)) != ScoreText(Str("0"))
  {
    assert "미응시"[0] != "0점"[0];
  }

  // ---------------------------------------------------------------------
  // Prompt template

  /** The rule line the greeting must follow. */
  const RuleLine: string := "- 인사말은 반드시 아래 문장으로 시작:"

  /** The labels of the input-data lines, in the order the template lists them. */
  const InputLabels: seq<string> := [
    "출결: ", "태도: ", "과제: ", "수업 진도: ", "과제 내용: ", "테스트 범위: ",
    "데일리 테스트 점수: ", "취약유사 점수: ", "추가 요구조건: "]

  /** The rendered values of the input-data lines, in the same order. */
  function InputValues(f: Fields): seq<string>
  {
    [ Render(f.attendance), Render(f.attitude), Render(f.homeworkStatus),
      Render(f.progress), Render(f.homework), Render(f.testRange),
      ScoreText(f.score), WeakScoreText(f.weakScore), Render(f.extraRequest) ]
  }

  /** Template lines 51-55: the persona, the writing instruction and the rule line. */
  const TemplateHead: seq<string> := [
    "당신은 경기도 광명시 철산동의 수학 전문 학원 '고수학' 데일리 리포트 전용 AI입니다.",
    "아래 정보를 바탕으로 **간결하고 핵심만 요약한 리포트**를 작성해 주세요.",
    "",
    "[작성 규칙]",
    RuleLine ]

  /** Template lines 57-64: the remaining rules and the input-data heading. */
  const TemplateRules: seq<string> := [
    "- 각 항목은 한두 줄로만 간결하게 작성",
    "- 불필요한 장황한 설명은 제거",
    "- 수업리뷰는 3문장 이내로 핵심만",
    "- 학생의 태도나 출결, 과제 상태는 간단히 명시",
    "- 테스트 점수와 취약유사 점수는 함께 표시",
    "- 진도에서 한 가지 개념을 구체적으로 언급",
    "",
    "[입력 데이터]" ]

  /** Template lines 74-86: the report format the model is asked to follow. */
  const TemplateTail: seq<string> := [
    "",
    "[리포트 포맷]",
    "안녕하세요. (선생님 이름 유무에 맞는 인사말) ",
    "",
    "출결: ○○",
    "태도: ○○",
    "과제: ○○",
    "",
    "진도: (한 줄)",
    "과제: (한 줄)",
    "테스트: (테스트 종류와 점수 요약)",
    "",
    "수업리뷰: (3문장 이내로 간단히 작성)" ]

  /** Template lines 65-73: each label followed by its field's rendering. */
  function InputLines(f: Fields): (ls: seq<string>)
  {
    seq(9, k requires 0 <= k < 9 => InputLabels[k] + InputValues(f)[k])
  }

  /** The lines of the template literal between its opening and closing
      backquotes; line L of the source file is element L - 51. */
  function PromptLines(f: Fields, greeting: string): seq<string>
  {
    TemplateHead + [greeting] + TemplateRules + InputLines(f) + TemplateTail
  }

  /** Each line followed by a line feed. */
  function Unlines(ls: seq<string>): string
  {
    if ls == [] then "" else ls[0] + "\n" + Unlines(ls[1..])
  }

  /** Where line `k` starts in `Unlines(ls)`. */
  function LineStart(ls: seq<string>, k: nat): nat
    requires k <= |ls|
  {
    if k == 0 then 0 else |ls[0]| + 1 + LineStart(ls[1..], k - 1)
  }

  /** Line `k` sits at `LineStart(ls, k)` and is followed by a line feed. */
  lemma {:induction false} UnlinesLine(ls: seq<string>, k: nat)
    requires k < |ls|
    ensures LineStart(ls, k) + |ls[k]| < |Unlines(ls)|
    ensures Unlines(ls)[LineStart(ls, k)..LineStart(ls, k) + |ls[k]|] == ls[k]
    ensures Unlines(ls)[LineStart(ls, k) + |ls[k]|] == '\n'
  {
    var rest := Unlines(ls[1..]);
    assert Unlines(ls) == ls[0] + "\n" + rest;
    if k > 0 {
      UnlinesLine(ls[1..], k - 1);
      var o := LineStart(ls[1..], k - 1);
      assert Unlines(ls)[|ls[0]| + 1 + o..|ls[0]| + 1 + o + |ls[k]|] == rest[o..o + |ls[k]|];
    }
  }

  /** Consecutive lines follow one another with one line feed between them. */
  lemma {:induction false} LineStartNext(ls: seq<string>, k: nat)
    requires k < |ls|
    ensures LineStart(ls, k + 1) == LineStart(ls, k) + |ls[k]| + 1
  {
    if k > 0 {
      LineStartNext(ls[1..], k - 1);
    }
  }

  /** The template literal: it opens with a line break and every line ends
      with one (the file's CR LF line ends read as LF inside a template). */
  function Prompt(f: Fields, greeting: string): string
  {
    "\n" + Unlines(PromptLines(f, greeting))
  }

  /** Where line `k` of the template starts in the prompt. */
  function PromptLineStart(f: Fields, greeting: string, k: nat): nat
    requires k <= |PromptLines(f, greeting)|
  {
    1 + LineStart(PromptLines(f, greeting), k)
  }

  /** Line `k` of the template appears verbatim in the prompt at its start
      offset, followed by a line feed. */
  lemma PromptLine(f: Fields, greeting: string, k: nat)
    requires k < |PromptLines(f, greeting)|
    ensures var p, o, l := Prompt(f, greeting), PromptLineStart(f, greeting, k), PromptLines(f, greeting)[k];
      o + |l| < |p| && p[o..o + |l|] == l && p[o + |l|] == '\n'
  {
    OpenedLine(PromptLines(f, greeting), k);
  }

  /** The same for any lines behind an opening line break. */
  lemma OpenedLine(ls: seq<string>, k: nat)
    requires k < |ls|
    ensures var p, o := "\n" + Unlines(ls), 1 + LineStart(ls, k);
      o + |ls[k]| < |p| && p[o..o + |ls[k]|] == ls[k] && p[o + |ls[k]|] == '\n'
  {
    UnlinesLine(ls, k);
    var o := LineStart(ls, k);
    assert ("\n" + Unlines(ls))[1 + o..1 + o + |ls[k]|] == Unlines(ls)[o..o + |ls[k]|];
  }

  /** The greeting stands verbatim on the line right after the rule line
      "- 인사말은 반드시 아래 문장으로 시작:". */
  lemma GreetingFollowsRule(f: Fields, greeting: string)
    ensures var p, o := Prompt(f, greeting), PromptLineStart(f, greeting, 4);
      && o + |RuleLine| + 1 + |greeting| < |p|
      && p[o..o + |RuleLine|] == RuleLine
      && p[o + |RuleLine|] == '\n'
      && p[o + |RuleLine| + 1..o + |RuleLine| + 1 + |greeting|] == greeting
      && p[o + |RuleLine| + 1 + |greeting|] == '\n'
  {
    GreetingLine(f, greeting);
    AdjacentLines(PromptLines(f, greeting), 4);
  }

  /** Line 4 of the template is the rule line and line 5 the greeting. */
  lemma GreetingLine(f: Fields, greeting: string)
    ensures |PromptLines(f, greeting)| == 36
    ensures PromptLines(f, greeting)[4] == RuleLine && PromptLines(f, greeting)[5] == greeting
  {
  }

  /** Behind the opening line break, line `k` and line `k + 1` follow one
      another with one line feed between them. */
  lemma AdjacentLines(ls: seq<string>, k: nat)
    requires k + 1 < |ls|
    ensures var p, o, a, b := "\n" + Unlines(ls), 1 + LineStart(ls, k), ls[k], ls[k + 1];
      && o + |a| + 1 + |b| < |p|
      && p[o..o + |a|] == a && p[o + |a|] == '\n'
      && p[o + |a| + 1..o + |a| + 1 + |b|] == b && p[o + |a| + 1 + |b|] == '\n'
  {
    OpenedLine(ls, k);
    OpenedLine(ls, k + 1);
    LineStartNext(ls, k);
  }

  /** Where input line `k` (0 for 출결 up to 8 for 추가 요구조건) starts. */
  function InputLineStart(f: Fields, greeting: string, k: nat): nat
    requires k < 9
  {
    PromptLineStart(f, greeting, 14 + k)
  }

  /** Input line `k` is its label followed by the field's rendered value, the
      lines come in the fixed order 출결, 태도, 과제, 수업 진도, 과제 내용,
      테스트 범위, 데일리 테스트 점수, 취약유사 점수, 추가 요구조건, and all of
      them come after the greeting. */
  lemma InputLinesInOrder(f: Fields, greeting: string, k: nat)
    requires k < 9
    ensures var p, o := Prompt(f, greeting), InputLineStart(f, greeting, k);
      var l := InputLabels[k] + InputValues(f)[k];
      && o + |l| < |p| && p[o..o + |l|] == l && p[o + |l|] == '\n'
      && (k < 8 ==> InputLineStart(f, greeting, k + 1) == o + |l| + 1)
      && PromptLineStart(f, greeting, 5) + |greeting| < o
  {
    var ls := PromptLines(f, greeting);
    assert ls[14 + k] == InputLines(f)[k];
    PromptLine(f, greeting, 14 + k);
    LineStartNext(ls, 14 + k);
    LineStartsIncrease(ls, 5, 14 + k);
  }

  lemma {:induction false} LineStartsIncrease(ls: seq<string>, i: nat, j: nat)
    requires i < j <= |ls|
    ensures LineStart(ls, i) + |ls[i]| < LineStart(ls, j)
    decreases j - i
  {
    LineStartNext(ls, i);
    if i + 1 < j {
      LineStartsIncrease(ls, i + 1, j);
    }
  }

  /** The prompt for a request and a clock reading, or the TypeError that
      the greeting's `trim` call throws. */
  function BuildPrompt(f: Fields, c: Clock): Result<string, BuildError>
  {
    match Greeting(f, DateText(c))
    case Failure(e) => Failure(e)
    case Success(g) => Success(Prompt(f, g))
  }

  /** Building fails only for a truthy non-string `teacherName`; otherwise the
      prompt's greeting line is the selected greeting for today's date. */
  lemma BuildPromptGreeting(f: Fields, c: Clock)
    ensures BuildPrompt(f, c).Failure? <==> Truthy(f.teacherName) && !f.teacherName.Str?
    ensures BuildPrompt(f, c).Success? ==>
      var sal := SelectSalutation(f.teacherName).value;
      var g := GreetingText(sal, Render(f.className), Render(f.name), DateText(c));
      && BuildPrompt(f, c).value == Prompt(f, g)
      && PromptLines(f, g)[5] == g
      && Occurs(DateText(c), g)
  {
    SelectSalutationCases(f.teacherName);
    if SelectSalutation(f.teacherName).Success? {
      var sal := SelectSalutation(f.teacherName).value;
      var g := GreetingText(sal, Render(f.className), Render(f.name), DateText(c));
      assert Greeting(f, DateText(c)) == Success(g);
      assert BuildPrompt(f, c) == Success(Prompt(f, g));
      GreetingLine(f, g);
      GreetingMentions(sal, Render(f.className), Render(f.name), DateText(c));
    }
  }
}
