/**
  The three prompt templates and the greeting resource: pure template-literal
  renderers. Each prompt answers with a single user message of text.
*/
module Prompts {
  import opened Wrappers

  datatype PromptMessage = PromptMessage(role: string, text: string)

  datatype PromptResult = PromptResult(messages: seq<PromptMessage>)

  /** The shape every prompt answer has: one message, from the user. */
  function UserMessage(text: string): (r: PromptResult)
    ensures |r.messages| == 1 && r.messages[0] == PromptMessage("user", text)
  {
    PromptResult([PromptMessage("user", text)])
  }

  /** `s` contains `t` starting at position `k`. */
  predicate MentionsAt(s: string, t: string, k: int) {
    0 <= k <= |s| - |t| && s[k..k + |t|] == t
  }

  /** `s` contains `t` starting at some position. */
  predicate Mentions(s: string, t: string) {
    exists k :: 0 <= k <= |s| && MentionsAt(s, t, k)
  }

  /** `pre + x + post` contains `x`. */
  lemma MentionsMiddle(pre: string, x: string, post: string)
    ensures Mentions(pre + x + post, x)
  {
    var s := pre + x + post;
    assert MentionsAt(s, x, |pre|);
  }

  /** The text between a fixed prefix and a fixed suffix is determined by the whole. */
  lemma FrameInjective(pre: string, a: string, b: string, post: string)
    requires pre + a + post == pre + b + post
    ensures a == b
  {
    var s := pre + a + post;
    assert |a| == |b|;
    assert s[|pre|..|pre| + |a|] == a;
    assert (pre + b + post)[|pre|..|pre| + |b|] == b;
  }

  /** A text quoting the same value twice between fixed parts determines that value. */
  lemma TwiceFramedInjective(pre: string, a: string, b: string, mid: string, post: string)
    requires pre + a + mid + a + post == pre + b + mid + b + post
    ensures a == b
  {
    var s := pre + a + mid + a + post;
    assert |s| == |pre| + 2 * |a| + |mid| + |post|;
    assert |a| == |b|;
    assert s[|pre|..|pre| + |a|] == a;
    assert (pre + b + mid + b + post)[|pre|..|pre| + |b|] == b;
  }

  // process-complaint

  const ProcessOpening := "컴플레인 ID "
  const ProcessBody := @"에 대한 처리를 도와주세요.

다음 단계를 순차적으로 진행해주세요:

## 1단계: 컴플레인 상세 정보 조회
- fetch-complaint tool을 사용하여 컴플레인 전체 정보를 가져옵니다
- 티켓 번호, 고객 정보, 카테고리, 우선순위, 현재 상태를 확인합니다
- 관련 상품/주문/판매자 정보가 있는지 확인합니다

## 2단계: 사용자 로그 확인
- 컴플레인에 연결된 userId가 있다면 fetch-user-logs tool을 사용하여 최근 활동을 확인합니다
- 사용자의 최근 행동 패턴을 파악합니다 (로그인, 주문, 문의 등)
- 이전에도 유사한 문제가 있었는지 확인합니다

## 3단계: 처리 과정 확인
- fetch-complaint-responses tool을 사용하여 현재까지의 응답 이력을 확인합니다
- 담당자가 할당되었는지, 언제 첫 응답이 있었는지 확인합니다
- 에스컬레이션 레벨과 현재 진행 상태를 분석합니다
- SLA 준수 여부를 확인합니다 (첫 응답 24시간 이내)

## 4단계: 템플릿 확인 및 적용
- category와 subCategory를 기반으로 적절한 응답 템플릿이 있는지 확인합니다
- 컴플레인 내용(subject, description)을 분석하여 가장 적합한 템플릿을 찾습니다
- 템플릿이 있다면 고객에게 보낼 응답 초안을 작성합니다

## 5단계: 에스컬레이션 필요 여부 판단
템플릿이 없거나 다음 조건에 해당하면 에스컬레이션이 필요합니다:
- priority가 'high'인 경우
- 처리 시간이 오래 걸린 경우
- 기술적 이슈가 복잡한 경우
- 보상이 필요한 경우

에스컬레이션이 필요하다면:
- fetch-available-agents tool로 현재 업무 가능한 담당자를 확인합니다
- 적절한 팀과 담당자를 추천합니다
- JIRA 티켓 생성이 필요한지 판단합니다

## 6단계: 처리 권고사항 제시
위 분석을 바탕으로:
- 즉시 처리 가능한지, 에스컬레이션이 필요한지 판단
- 예상 처리 시간
- 고객에게 보낼 응답 초안
- 필요한 보상 조치 (있다면)
- 다음 액션 아이템

각 단계의 결과를 명확하게 정리하여 보고해주세요."

  function ProcessComplaintText(complaintId: string): string {
    ProcessOpening + complaintId + ProcessBody
  }

  /** The step-by-step processing guide for one complaint. */
  function ProcessComplaint(complaintId: string): (r: PromptResult)
    ensures |r.messages| == 1 && r.messages[0].role == "user"
    ensures Mentions(r.messages[0].text, complaintId)
  {
    MentionsMiddle(ProcessOpening, complaintId, ProcessBody);
    UserMessage(ProcessComplaintText(complaintId))
  }

  /** Distinct complaint ids give distinct guides. */
  lemma ProcessComplaintInjective(a: string, b: string)
    requires ProcessComplaint(a) == ProcessComplaint(b)
    ensures a == b
  {
    assert ProcessComplaintText(a) == ProcessComplaint(a).messages[0].text;
    FrameInjective(ProcessOpening, a, b, ProcessBody);
  }

  // analyze-complaint-trend

  const TrendOpening := "최근 "
  const TrendAfterDays := "일간의 컴플레인 트렌드를 분석해주세요"
  const FilterOpening := " (카테고리: "
  const FilterClosing := ")"
  const TrendMiddle := "." + TrendSections
  const TrendSections := @"

## 분석 단계:

### 1. 전체 통계 확인
- fetch-complaint-stats tool을 사용하여 전체 통계를 가져옵니다
- 총 컴플레인 수, 상태별 분포, 카테고리별 분포, 우선순위별 분포를 확인합니다

### 2. 미처리 컴플레인 분석
- fetch-pending-complaints tool을 사용하여 미처리 컴플레인을 확인합니다
- 가장 오래된 미처리 건은 언제부터인지 확인합니다
- 우선순위가 높은 미처리 건이 있는지 확인합니다

### 3. 카테고리별 상세 분석
"
  /** The tool the category step points the model at. */
  const CategoryToolName := "fetch-complaints-by-category"
  const CategoryStepOpening := "- " + CategoryToolName + " tool로 "
  const CategoryStepClosing := " 카테고리의 컴플레인들을 분석합니다"
  // One line of the template, kept in three pieces so that its characters stay checkable.
  const GenericStep := "- 각 주요 카테고리(가격정보, 상품정보, " + "배송구매, 리뷰평점, 회원개인정보, " + "시스템기술)별로 컴플레인 수를 확인합니다"
  const TrendClosing := @"
- 어떤 카테고리에 문제가 집중되어 있는지 파악합니다
- 반복되는 이슈 패턴을 찾습니다

### 4. 처리 효율성 분석
- 평균 응답 시간과 해결 시간을 계산합니다
- SLA 준수율을 확인합니다
- 담당자별 처리 현황을 파악합니다 (가능한 경우)

### 5. 인사이트 및 권고사항
분석 결과를 바탕으로:
- 주요 문제점 3가지
- 개선이 필요한 영역
- 우선적으로 처리해야 할 항목
- 프로세스 개선 제안

각 분석 결과를 구체적인 수치와 함께 정리해주세요."

  /** JavaScript truthiness of an optional string argument: given and non-empty. */
  predicate Given(arg: Option<string>) {
    arg.Some? && arg.value != ""
  }

  /** The `days = "7"` default applies only when the argument is absent. */
  function TrendDays(days: Option<string>): (d: string)
    ensures days.None? ==> d == "7"
    ensures days.Some? ==> d == days.value
  {
    days.GetOr("7")
  }

  function CategoryFilter(category: Option<string>): (f: string)
    ensures (f == "") <==> !Given(category)
  {
    if Given(category) then FilterOpening + category.value + FilterClosing else ""
  }

  /** A text that lacks the first character of `t` does not contain `t`. */
  lemma AbsentWithoutFirst(s: string, t: string)
    requires |t| > 0 && t[0] !in s
    ensures !Mentions(s, t)
  {
  }

  /** The generic step names no tool. */
  lemma GenericStepNamesNoTool()
    ensures !Mentions(GenericStep, CategoryToolName)
  {
    assert 'f' !in GenericStep;
    AbsentWithoutFirst(GenericStep, CategoryToolName);
  }

  /** The category step names the category tool and the category. */
  lemma CategoryStepMentions(v: string)
    ensures var line := CategoryStepOpening + v + CategoryStepClosing;
      Mentions(line, CategoryToolName) && Mentions(line, v)
  {
    MentionsMiddle(CategoryStepOpening, v, CategoryStepClosing);
    MentionsMiddle("- ", CategoryToolName, " tool로 " + v + CategoryStepClosing);
    assert CategoryStepOpening + v + CategoryStepClosing
      == "- " + CategoryToolName + (" tool로 " + v + CategoryStepClosing);
  }

  /** The analysis step: with a category it names the category tool and the
      category; without one it is the generic per-category count, which names
      no tool. */
  function CategoryStep(category: Option<string>): (line: string)
    ensures Given(category) ==> Mentions(line, CategoryToolName) && Mentions(line, category.value)
    ensures Given(category) ==> line == CategoryStepOpening + category.value + CategoryStepClosing
    ensures !Given(category) ==> line == GenericStep && !Mentions(line, CategoryToolName)
  {
    if Given(category) then
      CategoryStepMentions(category.value);
      CategoryStepOpening + category.value + CategoryStepClosing
    else
      GenericStepNamesNoTool();
      GenericStep
  }

  /** Seven pieces of text in a row; the trend template is of this shape. */
  function Seven(p1: string, p2: string, p3: string, p4: string, p5: string, p6: string, p7: string)
    : (s: string)
    ensures |s| == |p1| + |p2| + |p3| + |p4| + |p5| + |p6| + |p7|
  {
    p1 + p2 + p3 + p4 + p5 + p6 + p7
  }

  lemma SevenMentions(p1: string, p2: string, p3: string, p4: string, p5: string, p6: string, p7: string)
    ensures Mentions(Seven(p1, p2, p3, p4, p5, p6, p7), p2)
    ensures Mentions(Seven(p1, p2, p3, p4, p5, p6, p7), p4)
    ensures Mentions(Seven(p1, p2, p3, p4, p5, p6, p7), p6)
  {
    var s := Seven(p1, p2, p3, p4, p5, p6, p7);
    assert s == p1 + p2 + (p3 + p4 + p5 + p6 + p7);
    MentionsMiddle(p1, p2, p3 + p4 + p5 + p6 + p7);
    assert s == (p1 + p2 + p3) + p4 + (p5 + p6 + p7);
    MentionsMiddle(p1 + p2 + p3, p4, p5 + p6 + p7);
    assert s == (p1 + p2 + p3 + p4 + p5) + p6 + p7;
    MentionsMiddle(p1 + p2 + p3 + p4 + p5, p6, p7);
  }

  /** The character just after the third piece starts the fourth, or the fifth when the fourth is empty. */
  lemma SevenAfterThird(p1: string, p2: string, p3: string, p4: string, p5: string, p6: string, p7: string)
    requires p4 != "" || p5 != ""
    ensures var s := Seven(p1, p2, p3, p4, p5, p6, p7);
      s[|p1| + |p2| + |p3|] == if p4 != "" then p4[0] else p5[0]
  {
    var s := Seven(p1, p2, p3, p4, p5, p6, p7);
    assert s == (p1 + p2 + p3) + (p4 + p5 + p6 + p7);
  }

  lemma SevenSecondInjective(p1: string, x: string, y: string, p3: string, p4: string, p5: string, p6: string, p7: string)
    requires Seven(p1, x, p3, p4, p5, p6, p7) == Seven(p1, y, p3, p4, p5, p6, p7)
    ensures x == y
  {
    var post := p3 + p4 + p5 + p6 + p7;
    assert Seven(p1, x, p3, p4, p5, p6, p7) == p1 + x + post;
    assert Seven(p1, y, p3, p4, p5, p6, p7) == p1 + y + post;
    FrameInjective(p1, x, y, post);
  }

  /** The fourth and sixth pieces both quote the same value between fixed parts. */
  lemma SevenQuotedTwiceInjective(p1: string, p2: string, p3: string, q1: string, q2: string,
                                  p5: string, r1: string, r2: string, p7: string, x: string, y: string)
    requires Seven(p1, p2, p3, q1 + x + q2, p5, r1 + x + r2, p7)
          == Seven(p1, p2, p3, q1 + y + q2, p5, r1 + y + r2, p7)
    ensures x == y
  {
    var pre := p1 + p2 + p3 + q1;
    var mid := q2 + p5 + r1;
    var post := r2 + p7;
    assert Seven(p1, p2, p3, q1 + x + q2, p5, r1 + x + r2, p7) == pre + x + mid + x + post;
    assert Seven(p1, p2, p3, q1 + y + q2, p5, r1 + y + r2, p7) == pre + y + mid + y + post;
    TwiceFramedInjective(pre, x, y, mid, post);
  }

  function TrendText(category: Option<string>, days: Option<string>): string {
    Seven(TrendOpening, TrendDays(days), TrendAfterDays, CategoryFilter(category),
          TrendMiddle, CategoryStep(category), TrendClosing)
  }

  /** The trend-analysis guide for the last `days` days, optionally for one category. */
  function AnalyzeComplaintTrend(category: Option<string>, days: Option<string>): (r: PromptResult)
    ensures |r.messages| == 1 && r.messages[0].role == "user"
    ensures Mentions(r.messages[0].text, TrendDays(days))
  {
    SevenMentions(TrendOpening, TrendDays(days), TrendAfterDays, CategoryFilter(category),
                  TrendMiddle, CategoryStep(category), TrendClosing);
    UserMessage(TrendText(category, days))
  }

  /** A missing `days` renders exactly as `"7"` does. */
  lemma TrendDefaultDays(category: Option<string>)
    ensures AnalyzeComplaintTrend(category, None) == AnalyzeComplaintTrend(category, Some("7"))
  {
  }

  /** An empty `days` is not replaced by the default. */
  lemma TrendEmptyDaysKept(category: Option<string>)
    ensures AnalyzeComplaintTrend(category, Some("")) != AnalyzeComplaintTrend(category, None)
  {
    assert |TrendText(category, Some(""))| + 1 == |TrendText(category, None)|;
  }

  /** Every falsy category, absent or empty, renders as no category at all:
      no filter suffix and the generic step-3 line. */
  lemma TrendFalsyCategory(category: Option<string>, days: Option<string>)
    requires !Given(category)
    ensures AnalyzeComplaintTrend(category, days) == AnalyzeComplaintTrend(None, days)
    ensures Mentions(AnalyzeComplaintTrend(category, days).messages[0].text, GenericStep)
  {
    SevenMentions(TrendOpening, TrendDays(days), TrendAfterDays, "", TrendMiddle, GenericStep, TrendClosing);
  }

  /** A truthy category names itself in the summary line and in a step-3 line
      that sends the reader to fetch-complaints-by-category. */
  lemma TrendGivenCategory(category: Option<string>, days: Option<string>)
    requires Given(category)
    ensures var text := AnalyzeComplaintTrend(category, days).messages[0].text;
      Mentions(text, FilterOpening + category.value + FilterClosing) &&
      Mentions(text, CategoryStepOpening + category.value + CategoryStepClosing)
  {
    SevenMentions(TrendOpening, TrendDays(days), TrendAfterDays, CategoryFilter(category),
                  TrendMiddle, CategoryStep(category), TrendClosing);
  }

  /** A truthy category never renders like an absent one: right after the
      sentence, one has the filter suffix where the other has the full stop. */
  lemma TrendGivenDiffersFromAbsent(category: Option<string>, days: Option<string>)
    requires Given(category)
    ensures AnalyzeComplaintTrend(category, days) != AnalyzeComplaintTrend(None, days)
  {
    var k := |TrendOpening| + |TrendDays(days)| + |TrendAfterDays|;
    SevenAfterThird(TrendOpening, TrendDays(days), TrendAfterDays, CategoryFilter(category),
                    TrendMiddle, CategoryStep(category), TrendClosing);
    SevenAfterThird(TrendOpening, TrendDays(days), TrendAfterDays, "",
                    TrendMiddle, GenericStep, TrendClosing);
    assert TrendText(category, days)[k] == ' ';
    assert TrendText(None, days) == Seven(TrendOpening, TrendDays(days), TrendAfterDays, "",
                                          TrendMiddle, GenericStep, TrendClosing);
    assert TrendMiddle[0] == '.';
  }

  /** Distinct truthy categories give distinct guides for the same days. */
  lemma TrendCategoryInjective(a: string, b: string, days: Option<string>)
    requires a != "" && b != ""
    requires AnalyzeComplaintTrend(Some(a), days) == AnalyzeComplaintTrend(Some(b), days)
    ensures a == b
  {
    assert TrendText(Some(a), days) == TrendText(Some(b), days);
    SevenQuotedTwiceInjective(TrendOpening, TrendDays(days), TrendAfterDays, FilterOpening, FilterClosing,
                              TrendMiddle, CategoryStepOpening, CategoryStepClosing, TrendClosing, a, b);
  }

  /** Distinct `days` give distinct guides for the same category. */
  lemma TrendDaysInjective(category: Option<string>, d: string, e: string)
    requires AnalyzeComplaintTrend(category, Some(d)) == AnalyzeComplaintTrend(category, Some(e))
    ensures d == e
  {
    assert TrendText(category, Some(d)) == TrendText(category, Some(e));
    SevenSecondInjective(TrendOpening, d, e, TrendAfterDays, CategoryFilter(category),
                         TrendMiddle, CategoryStep(category), TrendClosing);
  }

  // assign-complaint-to-agent

  const AssignOpening := "컴플레인 ID "
  const AssignBody := @"를 적절한 담당자에게 할당하는 것을 도와주세요.

## 할당 프로세스:

### 1. 컴플레인 정보 확인
- fetch-complaint tool로 컴플레인 정보를 가져옵니다
- category, subCategory, priority, urgency를 확인합니다
- 기술적 이슈인지, 고객 응대 이슈인지 파악합니다

### 2. 현재 상태 확인
- 이미 담당자가 할당되어 있는지 확인합니다
- 할당되어 있다면 현재 진행 상태를 확인합니다
- 재할당이 필요한 상황인지 판단합니다

### 3. 가용 담당자 조회
- fetch-available-agents tool로 현재 업무 가능한 CS 담당자를 조회합니다
- 각 담당자의 현재 워크로드를 확인합니다
- specialties 정보를 확인하여 해당 카테고리 전문가를 찾습니다

### 4. 최적 담당자 추천
다음 기준으로 담당자를 추천합니다:
- 전문성: 해당 카테고리(category)에 대한 전문성이 있는가?
- 가용성: 현재 워크로드가 적절한가?
- 우선순위 처리 능력: priority가 high인 경우 시니어 담당자 우선
- 평균 만족도: satisfaction_rating이 높은 담당자 우선

### 5. 할당 권고사항 제시
- 추천 담당자 정보 (이름, 직급, 전문분야, 현재 워크로드)
- 할당 이유
- 예상 처리 시간
- 특별히 주의해야 할 사항

최종적으로 가장 적합한 담당자 1-3명을 순위별로 추천해주세요."

  function AssignComplaintText(complaintId: string): string {
    AssignOpening + complaintId + AssignBody
  }

  /** The assignment guide for one complaint. */
  function AssignComplaintToAgent(complaintId: string): (r: PromptResult)
    ensures |r.messages| == 1 && r.messages[0].role == "user"
    ensures Mentions(r.messages[0].text, complaintId)
  {
    MentionsMiddle(AssignOpening, complaintId, AssignBody);
    UserMessage(AssignComplaintText(complaintId))
  }

  /** Distinct complaint ids give distinct assignment guides. */
  lemma AssignComplaintInjective(a: string, b: string)
    requires AssignComplaintToAgent(a) == AssignComplaintToAgent(b)
    ensures a == b
  {
    assert AssignComplaintText(a) == AssignComplaintToAgent(a).messages[0].text;
    FrameInjective(AssignOpening, a, b, AssignBody);
  }

  // greeting resource

  datatype ResourceContent = ResourceContent(uri: string, text: string)

  /** The one content item of `greeting://{name}`: the requested URI and `Hello, {name}!`. */
  function Greeting(href: string, name: string): (contents: seq<ResourceContent>)
    ensures |contents| == 1 && contents[0].uri == href
    ensures var t := contents[0].text;
      |t| == |name| + 8 && t[..7] == "Hello, " && t[7..|t| - 1] == name && t[|t| - 1] == '!'
  {
    [ResourceContent(href, "Hello, " + name + "!")]
  }

  /** Distinct names give distinct greetings. */
  lemma GreetingInjective(href: string, a: string, b: string)
    requires Greeting(href, a) == Greeting(href, b)
    ensures a == b
  {
    var t := Greeting(href, a)[0].text;
    assert t[7..|t| - 1] == a;
  }

  // prompt dispatch

  const PromptNames := ["process-complaint", "analyze-complaint-trend", "assign-complaint-to-agent"]

  datatype PromptError = UnknownPrompt(name: string) | MissingArgument(argument: string)

  datatype PromptOutcome = Rendered(result: PromptResult) | PromptFailure(error: PromptError)

  function Optional(args: map<string, string>, key: string): (v: Option<string>)
    ensures v.Some? <==> key in args
    ensures v.Some? ==> v.value == args[key]
  {
    if key in args then Some(args[key]) else None
  }

  /** Rendering the prompt registered as `name`; a required `complaintId` that is
      missing is an error, and so is a name no prompt was registered under. */
  function GetPrompt(name: string, args: map<string, string>): (o: PromptOutcome)
    ensures o.PromptFailure? && o.error.UnknownPrompt? <==> name !in PromptNames
    ensures o.PromptFailure? && o.error.MissingArgument? <==>
      name in PromptNames && name != "analyze-complaint-trend" && "complaintId" !in args
    ensures o.PromptFailure? && o.error.UnknownPrompt? ==> o.error.name == name
    ensures o.PromptFailure? && o.error.MissingArgument? ==> o.error.argument == "complaintId"
    ensures o.Rendered? ==> |o.result.messages| == 1 && o.result.messages[0].role == "user"
    ensures name == "process-complaint" && "complaintId" in args ==>
      o == Rendered(ProcessComplaint(args["complaintId"]))
    ensures name == "assign-complaint-to-agent" && "complaintId" in args ==>
      o == Rendered(AssignComplaintToAgent(args["complaintId"]))
    ensures name == "analyze-complaint-trend" ==>
      o == Rendered(AnalyzeComplaintTrend(Optional(args, "category"), Optional(args, "days")))
  {
    if name == "process-complaint" then
      if "complaintId" in args then Rendered(ProcessComplaint(args["complaintId"]))
      else PromptFailure(MissingArgument("complaintId"))
    else if name == "analyze-complaint-trend" then
      Rendered(AnalyzeComplaintTrend(Optional(args, "category"), Optional(args, "days")))
    else if name == "assign-complaint-to-agent" then
      if "complaintId" in args then Rendered(AssignComplaintToAgent(args["complaintId"]))
      else PromptFailure(MissingArgument("complaintId"))
    else PromptFailure(UnknownPrompt(name))
  }
}
