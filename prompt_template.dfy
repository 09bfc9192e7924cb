/** The fixed text of the call prompt's template (hermes-interface/services/api.ts), one
    constant per line or fragment, and the proof that none of it holds a line break. Long
    fragments are written as sums of short literals. */
module PromptTemplate {

  predicate NoBreak(line: string) { '\n' !in line }

  /** The first line of the prompt, sentence by sentence. */
  const Persona: string := PersonaRole + PersonaDisguise + PersonaVoice + PersonaPace
  const PersonaRole: string :=
    "You are a helpful, " + "witty, and friendly AI " + "assistant. "
  const PersonaDisguise: string :=
    "Act like a human and " + "never let on that you " + "are an AI. "
  const PersonaVoice: string :=
    "Your voice and " + "personality should be " + "warm and engaging, with "
    + "a lively and playful " + "tone. "
  const PersonaPace: string :=
    "Talk quickly and keep " + "responses short and " + "conversational."
  const RatingLead: string := "RATING: "
  const RatingTail: string := "/5"
  const AddressLead: string := "USER'S ADDRESS: "
  const DateLead: string := "Today's date is "
  const YouAre: string := "You are "
  const AssistantCalling: string :=
    "'s personal assistant " + "calling "
  const RequestLead: string := "'S REQUEST: \""
  const BusinessLead: string := "BUSINESS: "
  const PhoneLead: string := "BUSINESS PHONE: "
  const BusinessAddressLead: string := "BUSINESS ADDRESS: "
  const GoalLead: string := "YOUR GOAL: Help "
  const GoalTail: string := " needs."
  const InstructionsHeading: string := "IMPORTANT INSTRUCTIONS:"
  const OnPhoneLead: string :=
    "- YOU ARE CURRENTLY ON " + "THE PHONE WITH "
  const Communicate: string := ", communicate "
  const IntroduceLead: string :=
    "- Start by politely " + "introducing yourself as "
  const ExplainLead: string := "- Clearly explain what "
  const CallbackMiddle: string := "'s callback number is "
  const NameLead: string := "- If they ask for "
  const NameMiddle: string := "'s name, say \""
  const CalendarLead: string := "- You have access to the "
  const OpeningLead: string :=
    "When the conversation " + "starts, let them know " + "you're calling about "
  const DefaultName: string := "Evan"
  const DefaultPhone: string := "705-606-0865"
  const ContextTail: string := ". Here's the context:"
  const GoalMiddle: string :=
    " with their request by " + "speaking to this " + "business. Be specific " + "about what "
  const OnPhoneMiddle: string := " on BEHALF OF "
  const OnPhoneTail: string := "'s GOAL IMMEDIATELY."
  const IntroduceTail: string := "'s assistant"
  const ExplainTail: string :=
    " is looking for based " + "on their request"
  const Friendly: string :=
    "- Be conversational and " + "friendly, not robotic"
  const Details: string :=
    "- Try to get specific " + "details like " + "availability, pricing, "
    + "or booking information"
  const NextSteps: string :=
    "- If they can help, try " + "to schedule something " + "or get next steps"
  const Focused: string :=
    "- Keep the conversation " + "focused and efficient"
  const Discretion: string :=
    "- DO NOT disclose any " + "information unless " + "asked directly"
  const NameTail: string :=
    "\" but do not give out " + "the phone number unless " + "they ask for it " + "directly."
  const CalendarMiddle: string :=
    "'s google calendar, use " + "this tool to check if " + "certain times are okay " + "for "
  const CalendarTail: string :=
    ". Before confirming any " + "appointment ever " + "consult the calendar."
  const CalendarAdd: string := CalendarTool + CalendarBooking
  const CalendarTool: string :=
    "- You also have access " + "to a tool that can add " + "to the calendar, "
  const CalendarBooking: string :=
    "so if you book an " + "appointment, make sure " + "to add it to the " + "calendar."
  const Brevity: string :=
    "- keep your responsese " + "short and to the point, " + "don't yap about "
    + "information that isn't " + "asked by the business."
  const NoDetours: string :=
    "- do not ask " + "unnesessary questions " + "or random follow ups, " + "get to the point "
    + "quickly."
  const OpeningMiddle: string :=
    "'s request and what " + "specifically you need " + "help with."

  lemma PersonaRoleNoBreak()
    ensures NoBreak(PersonaRole)
  {
  }

  lemma PersonaDisguiseNoBreak()
    ensures NoBreak(PersonaDisguise)
  {
  }

  lemma PersonaVoiceNoBreak()
    ensures NoBreak(PersonaVoice)
  {
  }

  lemma PersonaPaceNoBreak()
    ensures NoBreak(PersonaPace)
  {
  }

  lemma IntroductionNoBreak()
    ensures NoBreak(DateLead) && NoBreak(YouAre) && NoBreak(AssistantCalling) && NoBreak(ContextTail)
  {
  }

  lemma BusinessFieldsNoBreak()
    ensures NoBreak(RequestLead) && NoBreak(BusinessLead) && NoBreak(PhoneLead)
    ensures NoBreak(BusinessAddressLead)
  {
  }

  lemma OptionalLinesNoBreak()
    ensures NoBreak(RatingLead) && NoBreak(RatingTail) && NoBreak(AddressLead) && NoBreak(DefaultName)
    ensures NoBreak(DefaultPhone)
  {
  }

  lemma GoalFrameNoBreak()
    ensures NoBreak(GoalLead) && NoBreak(GoalTail) && NoBreak(InstructionsHeading)
  {
  }

  lemma GoalMiddleNoBreak()
    ensures NoBreak(GoalMiddle)
  {
  }

  lemma OnPhoneLineNoBreak()
    ensures NoBreak(OnPhoneLead) && NoBreak(OnPhoneMiddle) && NoBreak(Communicate)
    ensures NoBreak(OnPhoneTail)
  {
  }

  lemma IntroduceLineNoBreak()
    ensures NoBreak(IntroduceLead) && NoBreak(IntroduceTail) && NoBreak(ExplainLead)
  {
  }

  lemma ExplainLineNoBreak()
    ensures NoBreak(ExplainTail) && NoBreak(CallbackMiddle)
  {
  }

  lemma FriendlyNoBreak()
    ensures NoBreak(Friendly)
  {
  }

  lemma DetailsNoBreak()
    ensures NoBreak(Details)
  {
  }

  lemma NextStepsNoBreak()
    ensures NoBreak(NextSteps)
  {
  }

  lemma FocusedNoBreak()
    ensures NoBreak(Focused)
  {
  }

  lemma DiscretionNoBreak()
    ensures NoBreak(Discretion) && NoBreak(NameLead) && NoBreak(NameMiddle)
  {
  }

  lemma NameTailNoBreak()
    ensures NoBreak(NameTail)
  {
  }

  lemma CalendarMiddleNoBreak()
    ensures NoBreak(CalendarMiddle)
  {
  }

  lemma CalendarFrameNoBreak()
    ensures NoBreak(CalendarLead) && NoBreak(CalendarTail)
  {
  }

  lemma CalendarToolNoBreak()
    ensures NoBreak(CalendarTool)
  {
  }

  lemma CalendarBookingNoBreak()
    ensures NoBreak(CalendarBooking)
  {
  }

  lemma BrevityNoBreak()
    ensures NoBreak(Brevity)
  {
  }

  lemma NoDetoursNoBreak()
    ensures NoBreak(NoDetours)
  {
  }

  lemma OpeningLeadNoBreak()
    ensures NoBreak(OpeningLead)
  {
  }

  lemma OpeningMiddleNoBreak()
    ensures NoBreak(OpeningMiddle)
  {
  }

  /** No fixed text of the template holds a line break. */
  lemma TemplateNoBreak()
    ensures NoBreak(Persona) && NoBreak(RatingLead) && NoBreak(RatingTail) && NoBreak(AddressLead)
    ensures NoBreak(DateLead) && NoBreak(YouAre) && NoBreak(AssistantCalling) && NoBreak(RequestLead)
    ensures NoBreak(BusinessLead) && NoBreak(PhoneLead) && NoBreak(BusinessAddressLead)
    ensures NoBreak(GoalLead) && NoBreak(GoalTail) && NoBreak(InstructionsHeading)
    ensures NoBreak(OnPhoneLead) && NoBreak(Communicate) && NoBreak(IntroduceLead)
    ensures NoBreak(ExplainLead) && NoBreak(CallbackMiddle) && NoBreak(NameLead)
    ensures NoBreak(NameMiddle) && NoBreak(CalendarLead) && NoBreak(OpeningLead)
    ensures NoBreak(DefaultName) && NoBreak(DefaultPhone) && NoBreak(ContextTail)
    ensures NoBreak(GoalMiddle) && NoBreak(OnPhoneMiddle) && NoBreak(OnPhoneTail)
    ensures NoBreak(IntroduceTail) && NoBreak(ExplainTail) && NoBreak(Friendly) && NoBreak(Details)
    ensures NoBreak(NextSteps) && NoBreak(Focused) && NoBreak(Discretion) && NoBreak(NameTail)
    ensures NoBreak(CalendarMiddle) && NoBreak(CalendarTail) && NoBreak(CalendarAdd)
    ensures NoBreak(Brevity) && NoBreak(NoDetours) && NoBreak(OpeningMiddle)
  {
    PersonaRoleNoBreak();
    PersonaDisguiseNoBreak();
    PersonaVoiceNoBreak();
    PersonaPaceNoBreak();
    IntroductionNoBreak();
    BusinessFieldsNoBreak();
    OptionalLinesNoBreak();
    GoalFrameNoBreak();
    GoalMiddleNoBreak();
    OnPhoneLineNoBreak();
    IntroduceLineNoBreak();
    ExplainLineNoBreak();
    FriendlyNoBreak();
    DetailsNoBreak();
    NextStepsNoBreak();
    FocusedNoBreak();
    DiscretionNoBreak();
    NameTailNoBreak();
    CalendarMiddleNoBreak();
    CalendarFrameNoBreak();
    CalendarToolNoBreak();
    CalendarBookingNoBreak();
    BrevityNoBreak();
    NoDetoursNoBreak();
    OpeningLeadNoBreak();
    OpeningMiddleNoBreak();
  }
}
