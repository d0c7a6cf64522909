/** The tools the AI agent may call (ai-chat/tools_definitions.ts): a closed
    set of eight names, each declared with its parameters and the ones it
    requires. */
module ToolRegistry {
  import opened Optional

  datatype ToolName =
    | ListServicesTool
    | ListProfessionalsTool
    | GetAvailableSlotsTool
    | CreateAppointmentTool
    | GeneratePaymentTool
    | CheckPaymentStatusTool
    | ListMyAppointmentsTool
    | CancelAppointmentTool

  /** The names under which the agent calls the tools. */
  const ListServicesName: string := "list_services"
  const ListProfessionalsName: string := "list_professionals"
  const GetAvailableSlotsName: string := "get_available_slots"
  const CreateAppointmentName: string := "create_appointment"
  const GeneratePaymentName: string := "generate_payment"
  const CheckPaymentStatusName: string := "check_payment_status"
  const ListMyAppointmentsName: string := "list_my_appointments"
  const CancelAppointmentName: string := "cancel_appointment"

  /** The name under which the agent calls the tool. */
  function NameOf(tool: ToolName): string {
    match tool
    case ListServicesTool => ListServicesName
    case ListProfessionalsTool => ListProfessionalsName
    case GetAvailableSlotsTool => GetAvailableSlotsName
    case CreateAppointmentTool => CreateAppointmentName
    case GeneratePaymentTool => GeneratePaymentName
    case CheckPaymentStatusTool => CheckPaymentStatusName
    case ListMyAppointmentsTool => ListMyAppointmentsName
    case CancelAppointmentTool => CancelAppointmentName
  }

  /** The `switch` of executeTool: the tool a name selects, if any. */
  function ParseName(name: string): (r: Option<ToolName>)
    ensures r.Some? ==> NameOf(r.value) == name
  {
    if name == ListServicesName then Some(ListServicesTool)
    else if name == ListProfessionalsName then Some(ListProfessionalsTool)
    else if name == ListMyAppointmentsName then Some(ListMyAppointmentsTool)
    else if name == CancelAppointmentName then Some(CancelAppointmentTool)
    else if name == GetAvailableSlotsName then Some(GetAvailableSlotsTool)
    else if name == CreateAppointmentName then Some(CreateAppointmentTool)
    else if name == GeneratePaymentName then Some(GeneratePaymentTool)
    else if name == CheckPaymentStatusName then Some(CheckPaymentStatusTool)
    else None
  }

  /** Every tool's own name selects it, so no two tools share a name. */
  lemma ParseNameOf(tool: ToolName)
    ensures ParseName(NameOf(tool)) == Some(tool)
  {
    var n := NameOf(tool);
    match tool
    case ListServicesTool =>
    case ListProfessionalsTool =>
      assert |n| == 18 && n != ListServicesName;
    case ListMyAppointmentsTool =>
      assert n[0] == 'l' && n[5] == 'm';
      assert n != ListProfessionalsName && n != ListServicesName;
    case CancelAppointmentTool =>
      assert n[0] == 'c' && n[1] == 'a';
      assert n != ListServicesName && n != ListProfessionalsName && n != ListMyAppointmentsName;
    case GetAvailableSlotsTool =>
      assert n[0] == 'g' && |n| == 19;
      assert n != ListServicesName && n != ListProfessionalsName && n != ListMyAppointmentsName && n != CancelAppointmentName;
    case CreateAppointmentTool =>
      assert n[0] == 'c' && n[1] == 'r';
      assert n != ListServicesName && n != ListProfessionalsName && n != ListMyAppointmentsName
        && n != CancelAppointmentName && n != GetAvailableSlotsName;
    case GeneratePaymentTool =>
      assert n[0] == 'g' && |n| == 16;
      assert n != ListServicesName && n != ListProfessionalsName && n != ListMyAppointmentsName
        && n != CancelAppointmentName && n != GetAvailableSlotsName && n != CreateAppointmentName;
    case CheckPaymentStatusTool =>
      assert n[0] == 'c' && n[1] == 'h';
      assert n != ListServicesName && n != ListProfessionalsName && n != ListMyAppointmentsName
        && n != CancelAppointmentName && n != GetAvailableSlotsName && n != CreateAppointmentName
        && n != GeneratePaymentName;
  }

  /** Distinct tools have distinct names. */
  lemma NamesDistinct(a: ToolName, b: ToolName)
    ensures NameOf(a) == NameOf(b) <==> a == b
  {
    ParseNameOf(a);
    ParseNameOf(b);
  }

  /** One entry of the `tools` array: the function's name, description,
      declared properties and required properties. */
  datatype ToolDefinition = ToolDefinition(name: string, description: string, properties: seq<string>, required: seq<string>)

  /** The argument names the tools declare. */
  const AppointmentIdKey: string := "appointment_id"
  const ProfessionalIdKey: string := "professional_id"
  const ServiceIdKey: string := "service_id"
  const DateKey: string := "date"
  const TimeKey: string := "time"

  const Tools: seq<ToolDefinition> := [
    ToolDefinition(ListServicesName, "Lista todos os serviços e preços da empresa.", [], []),
    ToolDefinition(ListProfessionalsName, "Lista os profissionais disponíveis.", [], []),
    ToolDefinition(GetAvailableSlotsName, "Busca horários disponíveis para um profissional em uma data.",
      [ProfessionalIdKey, ServiceIdKey, DateKey], [ProfessionalIdKey, ServiceIdKey, DateKey]),
    ToolDefinition(CreateAppointmentName, "Realiza o agendamento de um serviço.",
      [ServiceIdKey, ProfessionalIdKey, DateKey, TimeKey], [ServiceIdKey, ProfessionalIdKey, DateKey, TimeKey]),
    ToolDefinition(GeneratePaymentName, "Gera um código PIX para pagamento de um agendamento.",
      [AppointmentIdKey], [AppointmentIdKey]),
    ToolDefinition(CheckPaymentStatusName, "Verifica se o pagamento de um agendamento foi confirmado.",
      [AppointmentIdKey], [AppointmentIdKey]),
    ToolDefinition(ListMyAppointmentsName,
      "Consulta os agendamentos realizados pelo usuário atual (focando em agendamentos hoje e futuros).", [], []),
    ToolDefinition(CancelAppointmentName, "Cancela um agendamento existente.", [AppointmentIdKey], [AppointmentIdKey])
  ]

  /** The position of each tool in the declared array. */
  function Position(tool: ToolName): (i: nat)
    ensures i < |Tools| && Tools[i].name == NameOf(tool)
  {
    match tool
    case ListServicesTool => 0
    case ListProfessionalsTool => 1
    case GetAvailableSlotsTool => 2
    case CreateAppointmentTool => 3
    case GeneratePaymentTool => 4
    case CheckPaymentStatusTool => 5
    case ListMyAppointmentsTool => 6
    case CancelAppointmentTool => 7
  }

  /** Exactly eight tools are declared, each once, and their names are
      exactly the names the dispatch accepts. */
  lemma DeclaredNamesAreDispatched()
    ensures |Tools| == 8
    ensures forall i :: 0 <= i < |Tools| ==> ParseName(Tools[i].name).Some?
    ensures forall tool: ToolName :: Tools[Position(tool)].name == NameOf(tool)
    ensures forall name :: ParseName(name).Some? ==> Tools[Position(ParseName(name).value)].name == name
    ensures forall i, j :: 0 <= i < j < |Tools| ==> Tools[i].name != Tools[j].name
  {
    forall i | 0 <= i < |Tools|
      ensures ParseName(Tools[i].name).Some?
    {
      PositionOfParsed(i);
    }
    forall i, j | 0 <= i < j < |Tools|
      ensures Tools[i].name != Tools[j].name
    {
      PositionOfParsed(i);
      PositionOfParsed(j);
    }
  }

  /** The tool that a declared name selects sits at that position. */
  lemma PositionOfParsed(i: nat)
    requires i < |Tools|
    ensures ParseName(Tools[i].name).Some? && Position(ParseName(Tools[i].name).value) == i
  {
    var tool := match i
      case 0 => ListServicesTool
      case 1 => ListProfessionalsTool
      case 2 => GetAvailableSlotsTool
      case 3 => CreateAppointmentTool
      case 4 => GeneratePaymentTool
      case 5 => CheckPaymentStatusTool
      case 6 => ListMyAppointmentsTool
      case _ => CancelAppointmentTool;
    assert Position(tool) == i;
    ParseNameOf(tool);
  }

  /** The declaration of a tool. */
  function Definition(tool: ToolName): (d: ToolDefinition)
    ensures d in Tools && d.name == NameOf(tool)
  {
    Tools[Position(tool)]
  }

  /** get_available_slots and create_appointment require their ids, date
      and time; the payment and cancel tools require appointment_id; the
      list tools take no parameters. Every required property is
      declared. */
  lemma RequiredArguments()
    ensures Definition(GetAvailableSlotsTool).required == ["professional_id", "service_id", "date"]
    ensures Definition(CreateAppointmentTool).required == ["service_id", "professional_id", "date", "time"]
    ensures Definition(GeneratePaymentTool).required == ["appointment_id"]
    ensures Definition(CheckPaymentStatusTool).required == ["appointment_id"]
    ensures Definition(CancelAppointmentTool).required == ["appointment_id"]
    ensures Definition(ListServicesTool).properties == [] && Definition(ListProfessionalsTool).properties == []
    ensures Definition(ListMyAppointmentsTool).properties == []
  {
  }

  /** Every tool requires each of the properties it declares. */
  lemma AllDeclaredRequired(tool: ToolName)
    ensures Definition(tool).required == Definition(tool).properties
  {
  }
}
