/**
 * The field validators of src/components/ai/smart-form-validation.tsx.
 *
 * Each validator maps the field's text to a result record; each regular expression of
 * the source is a predicate over the characters of the input. The amount validator
 * (floating-point parsing) is not part of this model and is passed in as a function.
 */
module SmartFormValidation {
  import opened Wrappers
  import opened Text

  datatype Severity = Error | Warning | Success | Info

  datatype ValidationResult = ValidationResult(
    isValid: bool,
    message: string,
    suggestion: Option<string>,
    kind: Severity)

  datatype FieldType = PixKey | Amount | Description | Phone | Email

  /** Every result the validators build is invalid exactly when its type is 'error'. */
  predicate Consistent(r: ValidationResult)
  {
    r.isValid <==> r.kind != Error
  }

  // ---------------------------------------------------------------- e-mail shape

  /** `[^\s@]`: neither whitespace nor '@'. */
  predicate Plain(c: char)
  {
    !IsWhitespace(c) && c != '@'
  }

  predicate AllPlain(s: string)
  {
    forall i :: 0 <= i < |s| ==> Plain(s[i])
  }

  /** `[^\s@]+\.[^\s@]+`: plain characters with a '.' that is neither first nor last. */
  predicate DottedDomain(d: string)
  {
    AllPlain(d) && exists k :: 0 < k < |d| - 1 && d[k] == '.'
  }

  /** `/^[^\s@]+@[^\s@]+\.[^\s@]+$/`. */
  predicate EmailShape(s: string)
  {
    exists i :: 0 < i < |s| && s[i] == '@' && AllPlain(s[..i]) && DottedDomain(s[i + 1..])
  }

  /** An e-mail shape has no whitespace and exactly one '@', which is neither first nor last. */
  lemma EmailShapeHasOneAt(s: string)
    requires EmailShape(s)
    ensures forall j :: 0 <= j < |s| ==> !IsWhitespace(s[j])
    ensures exists i :: 0 < i < |s| - 1 && s[i] == '@' && forall j :: 0 <= j < |s| && j != i ==> s[j] != '@'
  {
    var i :| 0 < i < |s| && s[i] == '@' && AllPlain(s[..i]) && DottedDomain(s[i + 1..]);
    forall j | 0 <= j < |s| && j != i
      ensures s[j] != '@' && !IsWhitespace(s[j])
    {
      if j < i {
        assert s[..i][j] == s[j];
      } else {
        assert s[i + 1..][j - i - 1] == s[j];
      }
    }
  }

  /** `includes('@cps.sp.gov.br') || includes('@etec.sp.gov.br')`. */
  predicate IsInstitutional(s: string)
  {
    Contains(s, "@cps.sp.gov.br") || Contains(s, "@etec.sp.gov.br")
  }

  // ---------------------------------------------------------------- CPF shape

  /** `^\d{3}\.\d{3}\.\d{3}-\d{2}$`. */
  predicate DottedCpfShape(s: string)
  {
    && |s| == 14 && s[3] == '.' && s[7] == '.' && s[11] == '-'
    && AllDigits(s[..3]) && AllDigits(s[4..7]) && AllDigits(s[8..11]) && AllDigits(s[12..])
  }

  /** `/^\d{11}$|^\d{3}\.\d{3}\.\d{3}-\d{2}$/`. */
  predicate CpfShape(s: string)
  {
    (|s| == 11 && AllDigits(s)) || DottedCpfShape(s)
  }

  /**
   * The CPF test runs on the key with every non-digit removed, so the dotted alternative
   * never matches and the test passes exactly when the key holds eleven digits.
   */
  lemma CpfTestCountsDigits(key: string)
    ensures !DottedCpfShape(KeepDigits(key))
    ensures CpfShape(KeepDigits(key)) <==> |KeepDigits(key)| == 11
  {
    var d := KeepDigits(key);
    if |d| == 14 {
      assert IsDigit(d[3]);
    }
  }

  // ---------------------------------------------------------------- phone shape

  /** `\+?5511\d{8,9}`. */
  predicate MobileShape(s: string)
  {
    var t := if |s| > 0 && s[0] == '+' then s[1..] else s;
    "5511" <= t && 12 <= |t| <= 13 && AllDigits(t[4..])
  }

  /** `\d{4,5}-?\d{4}`. */
  predicate LocalNumber(s: string)
  {
    || ((|s| == 8 || |s| == 9) && AllDigits(s))
    || (|s| == 9 && s[4] == '-' && AllDigits(s[..4]) && AllDigits(s[5..]))
    || (|s| == 10 && s[5] == '-' && AllDigits(s[..5]) && AllDigits(s[6..]))
  }

  /** `\(11\)\s?\d{4,5}-?\d{4}`. */
  predicate AreaCodeShape(s: string)
  {
    "(11)" <= s && (LocalNumber(s[4..]) || (|s| > 4 && IsWhitespace(s[4]) && LocalNumber(s[5..])))
  }

  /** `/^\+?5511\d{8,9}$|^\(11\)\s?\d{4,5}-?\d{4}$/`. */
  predicate PhoneShape(s: string)
  {
    MobileShape(s) || AreaCodeShape(s)
  }

  /**
   * The phone test runs on the text with all whitespace removed, so the optional blank
   * after "(11)" never matters: two shapes remain, `+?5511` and 8 or 9 digits, or "(11)",
   * 4 or 5 digits, an optional '-', and 4 digits.
   */
  lemma PhoneTestShapes(phone: string)
    ensures var t := RemoveWhitespace(phone);
      PhoneShape(t) <==> MobileShape(t) || ("(11)" <= t && LocalNumber(t[4..]))
  {
  }

  // ---------------------------------------------------------------- random key shape

  /** `[a-f0-9-]` under the case-insensitive flag. */
  predicate IsKeyChar(c: char)
  {
    ('a' <= c <= 'f') || ('A' <= c <= 'F') || IsDigit(c) || c == '-'
  }

  /** `key.length >= 32 && /^[a-f0-9-]+$/i.test(key)`. */
  predicate RandomKeyShape(s: string)
  {
    |s| >= 32 && forall i :: 0 <= i < |s| ==> IsKeyChar(s[i])
  }

  // ---------------------------------------------------------------- validators

  function Invalid(message: string, suggestion: Option<string>): ValidationResult
  {
    ValidationResult(false, message, suggestion, Error)
  }

  function Accepted(message: string, suggestion: Option<string>): ValidationResult
  {
    ValidationResult(true, message, suggestion, Success)
  }

  const EtecPixKeyMessage := "✅ Chave PIX ETEC válida"
  const EmailPixKeyMessage := "✅ E-mail válido como chave PIX"
  const CpfPixKeyMessage := "✅ CPF válido como chave PIX"
  const PhonePixKeyMessage := "✅ Telefone válido como chave PIX"
  const RandomPixKeyMessage := "✅ Chave aleatória válida"
  const BadPixKeyMessage := "Formato de chave PIX inválido"

  /** `validatePixKey`: e-mail, then CPF, then phone, then random key; the first match wins. */
  function ValidatePixKey(key: string): (r: ValidationResult)
    ensures Consistent(r)
  {
    if EmailShape(key) then
      if IsInstitutional(key) then
        Accepted(EtecPixKeyMessage, Some("Ótima escolha! Usando sistema ETEC para transferência"))
      else
        Accepted(EmailPixKeyMessage, None)
    else if CpfShape(KeepDigits(key)) then
      Accepted(CpfPixKeyMessage, Some("Lembre-se: nunca compartilhe seu CPF em locais públicos"))
    else if PhoneShape(RemoveWhitespace(key)) then
      Accepted(PhonePixKeyMessage, None)
    else if RandomKeyShape(key) then
      Accepted(RandomPixKeyMessage, Some("Chaves aleatórias são mais seguras para privacidade"))
    else
      Invalid(BadPixKeyMessage, Some("Use: email, CPF, telefone (+5511...) ou chave aleatória"))
  }

  /**
   * The branch a key lands in: a key is accepted iff it has one of the four shapes, and
   * each kind of key is recognised only when no earlier kind matches.
   */
  lemma PixKeyClassification(key: string)
    ensures var r := ValidatePixKey(key);
      var email := EmailShape(key);
      var cpf := |KeepDigits(key)| == 11;
      var phone := PhoneShape(RemoveWhitespace(key));
      var random := RandomKeyShape(key);
      && (r.isValid <==> email || cpf || phone || random)
      && (r.message == EtecPixKeyMessage <==> email && IsInstitutional(key))
      && (r.message == EmailPixKeyMessage <==> email && !IsInstitutional(key))
      && (r.message == CpfPixKeyMessage <==> !email && cpf)
      && (r.message == PhonePixKeyMessage <==> !email && !cpf && phone)
      && (r.message == RandomPixKeyMessage <==> !email && !cpf && !phone && random)
  {
    CpfTestCountsDigits(key);
    assert |EtecPixKeyMessage| == 23 && |EmailPixKeyMessage| == 30 && |CpfPixKeyMessage| == 27;
    assert |PhonePixKeyMessage| == 32 && |RandomPixKeyMessage| == 24 && |BadPixKeyMessage| == 29;
    var r := ValidatePixKey(key);
    if EmailShape(key) {
      assert r.isValid && (r.message == EtecPixKeyMessage || r.message == EmailPixKeyMessage);
    } else if |KeepDigits(key)| == 11 {
      assert r.isValid && r.message == CpfPixKeyMessage;
    } else if PhoneShape(RemoveWhitespace(key)) {
      assert r.isValid && r.message == PhonePixKeyMessage;
    } else if RandomKeyShape(key) {
      assert r.isValid && r.message == RandomPixKeyMessage;
    } else {
      assert !r.isValid && r.message == BadPixKeyMessage;
    }
  }

  /** A random-key-shaped key has no '@', so it never has the e-mail shape. */
  lemma RandomKeyIsNotEmail(key: string)
    requires RandomKeyShape(key)
    ensures !EmailShape(key)
  {
    forall i | 0 <= i < |key|
      ensures key[i] != '@'
    {
      assert IsKeyChar(key[i]);
    }
  }

  /** A random-key-shaped key has no blank, '+' or '(' and is too long for either phone shape. */
  lemma RandomKeyIsNotPhone(key: string)
    requires RandomKeyShape(key)
    ensures !PhoneShape(RemoveWhitespace(key))
  {
    assert RemoveWhitespace(key) == key;
    assert IsKeyChar(key[0]);
  }

  /**
   * The CPF test runs before the random-key test: a random-key-shaped key is reported as
   * a random key exactly when it does not hold eleven digits, and as a CPF otherwise.
   */
  lemma RandomKeyClassification(key: string)
    requires RandomKeyShape(key)
    ensures ValidatePixKey(key).message == RandomPixKeyMessage <==> |KeepDigits(key)| != 11
    ensures ValidatePixKey(key).message == CpfPixKeyMessage <==> |KeepDigits(key)| == 11
  {
    RandomKeyIsNotEmail(key);
    RandomKeyIsNotPhone(key);
    PixKeyClassification(key);
  }

  const TooLongMessage := "Descrição muito longa (máx. 100 caracteres)"
  const TooShortMessage := "Descrição muito curta"
  const DetailedMessage := "✅ Descrição detalhada"
  const PlainDescriptionMessage := "✅ Descrição válida"

  /** `validateDescription`: optional; at most 100 characters; short ones get a hint. */
  function ValidateDescription(desc: string): (r: ValidationResult)
    ensures Consistent(r)
    ensures r.isValid <==> IsBlank(desc) || |desc| <= 100
    ensures IsBlank(desc) ==> r.message == "" && r.kind == Success
    ensures r.kind == Info <==> !IsBlank(desc) && |desc| < 3
    ensures r.message == DetailedMessage <==> !IsBlank(desc) && 10 < |desc| <= 100
    ensures r.message == PlainDescriptionMessage <==> !IsBlank(desc) && 3 <= |desc| <= 10
    ensures !IsBlank(desc) && 3 <= |desc| <= 100 ==> r.kind == Success
  {
    if IsBlank(desc) then
      Accepted("", None)
    else if |desc| > 100 then
      Invalid(TooLongMessage, None)
    else if |desc| < 3 then
      ValidationResult(true, TooShortMessage,
        Some("Adicione mais detalhes para facilitar o controle financeiro"), Info)
    else
      Accepted(if |desc| > 10 then DetailedMessage else PlainDescriptionMessage, None)
  }

  /** `validatePhone`: the phone shape, tested after whitespace is removed. */
  function ValidatePhone(phone: string): (r: ValidationResult)
    ensures Consistent(r)
    ensures r.isValid <==> PhoneShape(RemoveWhitespace(phone))
  {
    if !PhoneShape(RemoveWhitespace(phone)) then
      Invalid("Formato de telefone inválido", Some("Use formato: (11) 99999-9999 ou +5511999999999"))
    else
      Accepted("✅ Telefone válido", None)
  }

  const InstitutionalEmailMessage := "✅ Email institucional ETEC"

  /** `validateEmail`: the e-mail shape; ETEC domains get the institutional message. */
  function ValidateEmail(email: string): (r: ValidationResult)
    ensures Consistent(r)
    ensures r.isValid <==> EmailShape(email)
    ensures r.message == InstitutionalEmailMessage <==> EmailShape(email) && IsInstitutional(email)
  {
    if !EmailShape(email) then
      Invalid("Formato de email inválido", None)
    else if IsInstitutional(email) then
      Accepted(InstitutionalEmailMessage, Some("Ótimo! Usando email institucional para maior segurança"))
    else
      Accepted("✅ Email válido", None)
  }

  /**
   * `validateInput`: a blank value is refused for every field except the description;
   * otherwise the field's own validator decides.
   */
  function ValidateInput(field: FieldType, fieldLabel: string, value: string,
                         validateAmount: string -> ValidationResult): (r: ValidationResult)
    ensures field != Description && IsBlank(value) ==> !r.isValid && r.kind == Error
    ensures IsBlank(value) ==> (r.isValid <==> field == Description)
    // the description is optional: a blank one is accepted silently
    ensures field == Description && IsBlank(value) ==> r.message == "" && r.kind == Success
    ensures field == Description ==> r == ValidateDescription(value)
    ensures field == Amount && !IsBlank(value) ==> r == validateAmount(value)
    ensures field == PixKey && !IsBlank(value) ==> r == ValidatePixKey(value)
    ensures field == Phone && !IsBlank(value) ==> r == ValidatePhone(value)
    ensures field == Phone && !IsBlank(value) ==> (r.isValid <==> PhoneShape(RemoveWhitespace(value)))
    ensures field == Email && !IsBlank(value) ==> r == ValidateEmail(value)
    ensures field == Email && !IsBlank(value) ==> (r.isValid <==> EmailShape(value))
    ensures (field == Amount && !IsBlank(value) ==> Consistent(validateAmount(value))) ==> Consistent(r)
  {
    if IsBlank(value) && field != Description then
      Invalid(fieldLabel + " é obrigatório", None)
    else
      match field
      case PixKey => ValidatePixKey(value)
      case Amount => validateAmount(value)
      case Description => ValidateDescription(value)
      case Phone => ValidatePhone(value)
      case Email => ValidateEmail(value)
  }

  // ---------------------------------------------------------------- suggestions

  function Sum(xs: seq<real>): real
  {
    if xs == [] then 0.0 else xs[0] + Sum(xs[1..])
  }

  const CommonAmounts: seq<string> := ["10,00", "25,00", "50,00", "100,00"]

  /**
   * `generateSuggestions`: fixed lists for PIX keys and descriptions; for amounts the
   * four common amounts, preceded by the formatted average of the recent amounts when
   * there are any; nothing for phone and e-mail.
   */
  function GenerateSuggestions(field: FieldType, recentAmounts: seq<real>,
                               formatAmount: real -> string): (r: seq<string>)
    ensures field == Amount ==> |r| >= |CommonAmounts| && r[|r| - |CommonAmounts|..] == CommonAmounts
    ensures field == Amount && recentAmounts != [] ==>
      |r| == 5 && r[0] == formatAmount(Sum(recentAmounts) / (|recentAmounts| as real))
    ensures field == Amount && recentAmounts == [] ==> |r| == 4
    ensures field == PixKey ==> |r| == 4
    ensures field == Description ==> |r| == 5
    ensures field == Phone || field == Email ==> r == []
  {
    match field
    case PixKey =>
      ["usuario@etec.sp.gov.br", "nome.sobrenome@cps.sp.gov.br", "(11) 99999-9999", "Chave aleatória"]
    case Amount =>
      if |recentAmounts| > 0 then
        [formatAmount(Sum(recentAmounts) / (|recentAmounts| as real))] + CommonAmounts
      else
        CommonAmounts
    case Description =>
      ["Almoço universitário", "Material escolar", "Transporte", "Projeto ETEC", "Divisão de conta"]
    case Phone => []
    case Email => []
  }
}
