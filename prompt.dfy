/** The system message of an AI turn (ai-chat/index.ts): the agent's
    prompt, its knowledge base when it has one, the company context, the
    current date and time, and the fixed formatting and tool-use
    instructions, in that order. */
module SystemPrompt {
  import opened Optional
  import opened Text
  import opened Tables

  const KnowledgeHeading: string := "\n\n[BASE DE CONHECIMENTO]\n"
  const DateHeading: string := "\nData/Hora atual (Brasília): "

  /** The fixed instructions, piece by piece. */
  const Instruction00: string := "\n\n[INSTRUÇÕES CRÍTICAS DE "
  const Instruction01: string := "FORMATAÇÃO - NUNCA USE "
  const Instruction02: string := "MARKDOWN]:\n1. PROIBIDO o uso "
  const Instruction03: string := "de caracteres de Markdown "
  const Instruction04: string := "como \"#\", \"##\", \"###\" "
  const Instruction05: string := "(títulos).\n2. PROIBIDO o uso "
  const Instruction06: string := "de negrito com dois "
  const Instruction07: string := "asteriscos (ex: **texto**). \n"
  const Instruction08: string := "3. Se precisar dar ênfase, "
  const Instruction09: string := "use apenas CAIXA ALTA ou "
  const Instruction10: string := "coloque entre aspas. NUNCA "
  const Instruction11: string := "use asteriscos.\n4. Use hifens "
  const Instruction12: string := "(-) ou números simples (1., "
  const Instruction13: string := "2.) para listas.\n5. Suas "
  const Instruction14: string := "respostas devem ser texto "
  const Instruction15: string := "puro, limpo e amigável, "
  const Instruction16: string := "pronto para leitura "
  const Instruction17: string := "instantânea no WhatsApp.\n6. "
  const Instruction18: string := "Nunca comece frases com "
  const Instruction19: string := "símbolos ou use formatação de "
  const Instruction20: string := "código (```).\n\n[OUTRAS "
  const Instruction21: string := "INSTRUÇÕES]:\n1. SEMPRE use os "
  const Instruction22: string := "IDs (UUIDs) para chamar as "
  const Instruction23: string := "ferramentas de agendamento e "
  const Instruction24: string := "pagamento. Nunca use nomes de "
  const Instruction25: string := "serviços ou profissionais "
  const Instruction26: string := "nessas chamadas.\n2. ANTES de "
  const Instruction27: string := "criar um novo agendamento, "
  const Instruction28: string := "SEMPRE use "
  const Instruction29: string := "'list_my_appointments' para "
  const Instruction30: string := "verificar se o usuário já "
  const Instruction31: string := "possui agendamentos desde "
  const Instruction32: string := "hoje para o futuro. Se houver "
  const Instruction33: string := "agendamentos vindouros, "
  const Instruction34: string := "informe o usuário e pergunte "
  const Instruction35: string := "se ele deseja REAGENDAR "
  const Instruction36: string := "(cancelar o atual e criar um "
  const Instruction37: string := "novo) ou CANCELAR.\n3. Se o "
  const Instruction38: string := "usuário quiser cancelar, use "
  const Instruction39: string := "a ferramenta "
  const Instruction40: string := "'cancel_appointment'. O "
  const Instruction41: string := "sistema automaticamente "
  const Instruction42: string := "removerá do calendário Google "
  const Instruction43: string := "dele.\n4. Identifique "
  const Instruction44: string := "claramente o "
  const Instruction45: string := "ID_DO_AGENDAMENTO e o TXID "
  const Instruction46: string := "nas suas respostas quando "
  const Instruction47: string := "gerá-los.\n5. Quando agendar "
  const Instruction48: string := "ou cancelar, informe ao "
  const Instruction49: string := "usuário que o calendário dele "
  const Instruction50: string := "será atualizado "
  const Instruction51: string := "automaticamente.\n6. Se o "
  const Instruction52: string := "usuário enviar uma imagem ou "
  const Instruction53: string := "PDF, o sistema tentará "
  const Instruction54: string := "analisar e você receberá uma "
  const Instruction55: string := "message como [Imagem]: "
  const Instruction56: string := "[Descrição]. Se for um "
  const Instruction57: string := "comprovante de pagamento, use "
  const Instruction58: string := "a ferramenta "
  const Instruction59: string := "'check_payment_status' para "
  const Instruction60: string := "verificar no banco de dados "
  const Instruction61: string := "se o pagamento já caiu."

  /** The instructions every turn's system message ends with. */
  const FixedInstructions: string :=
    Instruction00 + Instruction01 + Instruction02 + Instruction03 + Instruction04 + Instruction05 +
    Instruction06 + Instruction07 + Instruction08 + Instruction09 + Instruction10 + Instruction11 +
    Instruction12 + Instruction13 + Instruction14 + Instruction15 + Instruction16 + Instruction17 +
    Instruction18 + Instruction19 + Instruction20 + Instruction21 + Instruction22 + Instruction23 +
    Instruction24 + Instruction25 + Instruction26 + Instruction27 + Instruction28 + Instruction29 +
    Instruction30 + Instruction31 + Instruction32 + Instruction33 + Instruction34 + Instruction35 +
    Instruction36 + Instruction37 + Instruction38 + Instruction39 + Instruction40 + Instruction41 +
    Instruction42 + Instruction43 + Instruction44 + Instruction45 + Instruction46 + Instruction47 +
    Instruction48 + Instruction49 + Instruction50 + Instruction51 + Instruction52 + Instruction53 +
    Instruction54 + Instruction55 + Instruction56 + Instruction57 + Instruction58 + Instruction59 +
    Instruction60 + Instruction61

  /** `agent?.prompt || ""` */
  function PromptOf(agent: Option<Agent>): string {
    if agent.Some? then agent.value.prompt else ""
  }

  /** The knowledge-base block: present only when the agent has a non-empty
      knowledge base, and then its heading followed by the text. */
  function KnowledgeBlock(agent: Option<Agent>): (r: string)
    ensures r == "" <==> agent.None? || agent.value.knowledgeBase == ""
    ensures r != "" ==> r == KnowledgeHeading + agent.value.knowledgeBase
  {
    if agent.Some? && agent.value.knowledgeBase != "" then KnowledgeHeading + agent.value.knowledgeBase else ""
  }


  /** `systemContent`, with the fixed instructions as a parameter so that
      facts about its layout do not depend on their wording. */
  function SystemContent(agent: Option<Agent>, context: string, dateTime: string, instructions: string): string {
    PromptOf(agent) + KnowledgeBlock(agent) + "\n" + context + DateHeading + dateTime + instructions
  }

  /** The knowledge-base block appears right after the prompt exactly when
      the agent has a non-empty knowledge base; without one, the business
      context follows the prompt after a single line break. */
  lemma KnowledgeBlockPlacement(agent: Option<Agent>, context: string, dateTime: string, instructions: string)
    ensures var sys := SystemContent(agent, context, dateTime, instructions);
      && (agent.Some? && agent.value.knowledgeBase != "" ==>
            StartsWith(sys, PromptOf(agent) + KnowledgeHeading + agent.value.knowledgeBase + "\n" + context))
      && (agent.None? || agent.value.knowledgeBase == "" ==>
            StartsWith(sys, PromptOf(agent) + "\n" + context + DateHeading + dateTime))
  {
    var sys := SystemContent(agent, context, dateTime, instructions);
    var kb := KnowledgeBlock(agent);
    if kb == "" {
      assert sys == (PromptOf(agent) + "\n" + context + DateHeading + dateTime) + instructions;
    } else {
      assert sys == (PromptOf(agent) + kb + "\n" + context) + (DateHeading + dateTime + instructions);
    }
  }

  /** The system content ends with the fixed instructions. */
  lemma EndsWithInstructions(agent: Option<Agent>, context: string, dateTime: string, instructions: string)
    ensures var sys := SystemContent(agent, context, dateTime, instructions);
      |instructions| <= |sys| && sys[|sys| - |instructions|..] == instructions
  {
    var head := PromptOf(agent) + KnowledgeBlock(agent) + "\n" + context + DateHeading + dateTime;
    assert SystemContent(agent, context, dateTime, instructions) == head + instructions;
  }
}
