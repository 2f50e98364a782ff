/**
 * The contextual prompt scheduler of src/components/ai/contextual-prompts.tsx.
 *
 * A fixed table of five guided prompts; a selection rule that picks, in priority order,
 * the first prompt whose context applies and that the user has not completed; and a
 * session holding the prompt on screen, its current step and the ids completed so far.
 * The 300 ms delay before a closed prompt is cleared is taken as immediate.
 */
module ContextualPrompts {
  import opened Wrappers

  datatype Category = Tutorial | Tip | Onboarding | Feature

  datatype Prompt = Prompt(
    id: string,
    title: string,
    description: string,
    steps: seq<string>,
    category: Category,
    trigger: string)

  const DashboardWelcome: Prompt := Prompt(
    "dashboard-welcome",
    "Bem-vindo ao seu Banco ETEC!",
    "Vamos fazer um tour rápido pelas principais funcionalidades",
    ["Visualize seu saldo e transações recentes",
     "Explore as ações rápidas: PIX, Cartão, Transferências",
     "Acompanhe suas metas de economia",
     "Configure notificações para controle financeiro"],
    Onboarding,
    "dashboard-first-visit")

  const PixTutorial: Prompt := Prompt(
    "pix-tutorial",
    "Como usar o PIX ETEC",
    "Aprenda a fazer transferências instantâneas com segurança",
    ["Escolha entre Enviar, Receber ou usar QR Code",
     "Para enviar: digite a chave PIX e valor",
     "Para receber: compartilhe sua chave ou QR Code",
     "Sempre verifique os dados antes de confirmar"],
    Tutorial,
    "pix-first-access")

  const SpendingAnalysis: Prompt := Prompt(
    "spending-analysis",
    "Análise inteligente de gastos",
    "Use nossa IA para entender seus padrões financeiros",
    ["Acesse o assistente financeiro no ícone de chat",
     "Pergunte \"analisar meus gastos\"",
     "Receba insights personalizados sobre suas finanças",
     "Configure alertas baseados nas recomendações"],
    Feature,
    "high-spending-detected")

  const SecurityTips: Prompt := Prompt(
    "security-tips",
    "Dicas de segurança bancária",
    "Proteja suas transações com essas práticas essenciais",
    ["Nunca compartilhe sua senha ou dados pessoais",
     "Sempre verifique URLs e certificados de segurança",
     "Configure limites para PIX e transferências",
     "Monitore suas transações regularmente"],
    Tip,
    "security-reminder")

  const GoalSetting: Prompt := Prompt(
    "goal-setting",
    "Configure suas metas financeiras",
    "Planeje seu futuro com metas inteligentes",
    ["Defina objetivos específicos e realistas",
     "Estabeleça prazos para suas metas",
     "Configure lembretes automáticos",
     "Acompanhe seu progresso visualmente"],
    Feature,
    "stable-balance-detected")

  /** The prompt table, in declaration order. */
  const PromptTable: seq<Prompt> := [DashboardWelcome, PixTutorial, SpendingAnalysis, SecurityTips, GoalSetting]

  /** `table.find(p => p.id === id) || null`: the first prompt with this id. */
  function FindPrompt(table: seq<Prompt>, id: string): (r: Option<Prompt>)
    ensures r.Some? ==> r.value in table && r.value.id == id
    ensures r.None? <==> forall p :: p in table ==> p.id != id
  {
    if table == [] then None
    else if table[0].id == id then Some(table[0])
    else FindPrompt(table[1..], id)
  }

  /** `find` stops at the first match: every prompt before the one returned has another id. */
  lemma {:induction false} FindPromptIsFirst(table: seq<Prompt>, id: string)
    ensures var r := FindPrompt(table, id);
      r.Some? ==> exists k :: 0 <= k < |table| && table[k] == r.value && forall j :: 0 <= j < k ==> table[j].id != id
  {
    if table != [] && table[0].id != id {
      FindPromptIsFirst(table[1..], id);
      var r := FindPrompt(table[1..], id);
      if r.Some? {
        var k :| 0 <= k < |table[1..]| && table[1..][k] == r.value && forall j :: 0 <= j < k ==> table[1..][j].id != id;
        assert table[k + 1] == r.value && forall j :: 0 <= j < k + 1 ==> table[j].id != id;
      }
    } else if table != [] {
      assert table[0] == FindPrompt(table, id).value;
    }
  }

  /** The context condition of each selection rule, before the "not completed" test. */
  predicate WelcomeApplies(currentPage: string, isFirstTime: bool)
  {
    isFirstTime && currentPage == "dashboard"
  }

  predicate PixApplies(currentPage: string, userActions: seq<string>)
  {
    currentPage == "pix" && "pix-used" !in userActions
  }

  predicate SecurityApplies(userActions: seq<string>)
  {
    "multiple-transactions" in userActions
  }

  predicate GoalApplies(userActions: seq<string>)
  {
    "high-balance" in userActions
  }

  /**
   * `determinePromptToShow()`: the first rule, in the order welcome, PIX tutorial, security
   * tips, goal setting, whose context applies and whose prompt is not completed.
   */
  function DeterminePromptToShow(currentPage: string, userActions: seq<string>, isFirstTime: bool,
                                 completedPrompts: seq<string>): (r: Option<Prompt>)
    ensures r.Some? ==> r.value in PromptTable && r.value.id !in completedPrompts
    ensures r.Some? ==> r.value.id != SpendingAnalysis.id && |r.value.steps| == 4
  {
    if WelcomeApplies(currentPage, isFirstTime) && DashboardWelcome.id !in completedPrompts then
      FindPrompt(PromptTable, DashboardWelcome.id)
    else if PixApplies(currentPage, userActions) && PixTutorial.id !in completedPrompts then
      FindPrompt(PromptTable, PixTutorial.id)
    else if SecurityApplies(userActions) && SecurityTips.id !in completedPrompts then
      FindPrompt(PromptTable, SecurityTips.id)
    else if GoalApplies(userActions) && GoalSetting.id !in completedPrompts then
      FindPrompt(PromptTable, GoalSetting.id)
    else
      None
  }

  /**
   * Each prompt is chosen exactly when its own rule applies and no higher-priority rule
   * does; nothing is chosen when no rule applies.
   */
  lemma SelectionRules(currentPage: string, userActions: seq<string>, isFirstTime: bool,
                       completedPrompts: seq<string>)
    ensures var r := DeterminePromptToShow(currentPage, userActions, isFirstTime, completedPrompts);
      var welcome := WelcomeApplies(currentPage, isFirstTime) && DashboardWelcome.id !in completedPrompts;
      var pix := PixApplies(currentPage, userActions) && PixTutorial.id !in completedPrompts;
      var security := SecurityApplies(userActions) && SecurityTips.id !in completedPrompts;
      var goal := GoalApplies(userActions) && GoalSetting.id !in completedPrompts;
      && (r == Some(DashboardWelcome) <==> welcome)
      && (r == Some(PixTutorial) <==> pix)
      && (r == Some(SecurityTips) <==> !welcome && !pix && security)
      && (r == Some(GoalSetting) <==> !welcome && !pix && !security && goal)
      && (r == None <==> !welcome && !pix && !security && !goal)
  {
    assert PromptTable[0] == DashboardWelcome && PromptTable[1] == PixTutorial;
    assert PromptTable[1..][2] == SecurityTips && PromptTable[1..][3] == GoalSetting;
  }

  /** Once the four selectable prompts are all completed, no prompt is ever chosen again. */
  lemma AllCompletedShowsNothing(currentPage: string, userActions: seq<string>, isFirstTime: bool,
                                 completedPrompts: seq<string>)
    requires DashboardWelcome.id in completedPrompts && PixTutorial.id in completedPrompts
    requires SecurityTips.id in completedPrompts && GoalSetting.id in completedPrompts
    ensures DeterminePromptToShow(currentPage, userActions, isFirstTime, completedPrompts) == None
  {
  }

  /** The prompt on screen, its step, the completed ids and the visibility flag. */
  class PromptSession {
    var activePrompt: Option<Prompt>
    var currentStep: nat
    var completedPrompts: seq<string>
    var isVisible: bool

    /** A prompt is on screen exactly when one is active, and its step is one of its steps. */
    ghost predicate Valid()
      reads this
    {
      && isVisible == activePrompt.Some?
      && (activePrompt.None? ==> currentStep == 0)
      && (activePrompt.Some? ==> currentStep < |activePrompt.value.steps|)
    }

    constructor ()
      ensures Valid()
      ensures activePrompt == None && currentStep == 0 && completedPrompts == [] && !isVisible
    {
      activePrompt := None;
      currentStep := 0;
      completedPrompts := [];
      isVisible := false;
    }

    /**
     * The activation effect: when nothing is on screen and some prompt is chosen for the
     * current context, it becomes active and visible at step 0; otherwise nothing changes.
     */
    method Activate(currentPage: string, userActions: seq<string>, isFirstTime: bool)
      requires Valid()
      modifies this
      ensures Valid()
      ensures completedPrompts == old(completedPrompts)
      ensures var chosen := DeterminePromptToShow(currentPage, userActions, isFirstTime, old(completedPrompts));
        if chosen.Some? && old(activePrompt).None? then
          activePrompt == chosen && currentStep == 0 && isVisible
        else
          activePrompt == old(activePrompt) && currentStep == old(currentStep) && isVisible == old(isVisible)
    {
      var promptToShow := DeterminePromptToShow(currentPage, userActions, isFirstTime, completedPrompts);
      if promptToShow.Some? && activePrompt.None? {
        activePrompt := promptToShow;
        currentStep := 0;
        isVisible := true;
      }
    }

    /**
     * `handleNextStep()`: moves to the next step while one remains, otherwise completes
     * the prompt. Returns the id reported to `onPromptComplete`, if any.
     */
    method HandleNextStep() returns (reported: Option<string>)
      requires Valid()
      modifies this
      ensures Valid()
      ensures if old(activePrompt).Some? && old(currentStep) < |old(activePrompt).value.steps| - 1 then
          && activePrompt == old(activePrompt) && currentStep == old(currentStep) + 1
          && completedPrompts == old(completedPrompts) && isVisible && reported == None
        else
          && activePrompt == None && currentStep == 0 && !isVisible
          && completedPrompts == old(completedPrompts) + (if old(activePrompt).Some? then [old(activePrompt).value.id] else [])
          && reported == (if old(activePrompt).Some? then Some(old(activePrompt).value.id) else None)
    {
      if activePrompt.Some? && currentStep < |activePrompt.value.steps| - 1 {
        currentStep := currentStep + 1;
        reported := None;
      } else {
        reported := HandleCompletePrompt();
      }
    }

    /**
     * `handleCompletePrompt()`: records the active prompt's id as completed, reports it,
     * and closes the prompt.
     */
    method HandleCompletePrompt() returns (reported: Option<string>)
      requires Valid()
      modifies this
      ensures Valid()
      ensures activePrompt == None && currentStep == 0 && !isVisible
      ensures old(activePrompt).Some? ==>
        completedPrompts == old(completedPrompts) + [old(activePrompt).value.id]
        && reported == Some(old(activePrompt).value.id)
      ensures old(activePrompt).None? ==> completedPrompts == old(completedPrompts) && reported == None
    {
      if activePrompt.Some? {
        completedPrompts := completedPrompts + [activePrompt.value.id];
        reported := Some(activePrompt.value.id);
      } else {
        reported := None;
      }
      HandleClosePrompt();
    }

    /**
     * `handleClosePrompt()`: hides and clears the prompt and resets the step. Skipping a
     * prompt this way does not complete it.
     */
    method HandleClosePrompt()
      requires Valid()
      modifies this
      ensures Valid()
      ensures activePrompt == None && currentStep == 0 && !isVisible
      ensures completedPrompts == old(completedPrompts)
    {
      isVisible := false;
      activePrompt := None;
      currentStep := 0;
    }
  }

  /** Once the chosen prompt is recorded as completed, the same context no longer chooses it. */
  lemma {:induction false} CompletionIsFinal(currentPage: string, userActions: seq<string>, isFirstTime: bool,
                                             completedPrompts: seq<string>, p: Prompt)
    requires DeterminePromptToShow(currentPage, userActions, isFirstTime, completedPrompts) == Some(p)
    ensures DeterminePromptToShow(currentPage, userActions, isFirstTime, completedPrompts + [p.id]) != Some(p)
  {
    var r := DeterminePromptToShow(currentPage, userActions, isFirstTime, completedPrompts + [p.id]);
    assert p.id in completedPrompts + [p.id];
  }
}
