/**
 * The field validators of the server's `ContactForm` model
 * (server/main.py:29-56).  Each one either raises ValueError with a fixed
 * message or returns the stripped value, which is what the server stores.
 */
module Server {
  import opened Text

  /** A validator's outcome: the value it returns, or the message of the ValueError it raises. */
  datatype Validated = Accepted(value: string) | Raised(message: string)

  const NameEmpty: string := "姓名不能为空"
  const NameTooShort: string := "姓名至少2个字符"
  const PhoneEmpty: string := "手机号不能为空"
  const PhoneMalformed: string := "手机号格式不正确"
  const GradeEmpty: string := "年级不能为空"

  /** `not v or not v.strip()`. */
  predicate Blank(v: string) {
    v == "" || Trim(v) == ""
  }

  /** `validate_name` (lines 34-40): at least two characters once stripped. */
  function ValidateName(v: string): (r: Validated)
    ensures r.Accepted? <==> |Trim(v)| >= 2
    ensures r.Accepted? ==> r.value == Trim(v)
    ensures r.Raised? ==> r.message == (if AllSpace(v) then NameEmpty else NameTooShort)
  {
    if Blank(v) then Raised(NameEmpty)
    else if |Trim(v)| < 2 then Raised(NameTooShort)
    else Accepted(Trim(v))
  }

  /** The test of line 48: starts with '1', eleven characters, all digits. */
  predicate ServerPhoneRule(phone: string) {
    |phone| > 0 && phone[0] == '1' && |phone| == 11 && AllDigits(phone)
  }

  /** `validate_phone` (lines 42-50). */
  function ValidatePhone(v: string): (r: Validated)
    ensures r.Accepted? <==> ServerPhoneRule(Trim(v))
    ensures r.Accepted? ==> r.value == Trim(v) && |r.value| == 11 && AllDigits(r.value)
    ensures r.Raised? ==> r.message == (if AllSpace(v) then PhoneEmpty else PhoneMalformed)
  {
    if Blank(v) then Raised(PhoneEmpty)
    else
      var phone := Trim(v);
      if !(|phone| > 0 && phone[0] == '1') || |phone| != 11 || !AllDigits(phone) then Raised(PhoneMalformed)
      else Accepted(phone)
  }

  /** `validate_grade` (lines 52-56): anything not blank, stripped. */
  function ValidateGrade(v: string): (r: Validated)
    ensures r.Accepted? <==> !AllSpace(v)
    ensures r.Accepted? ==> r.value == Trim(v) && r.value != ""
    ensures r.Raised? ==> r.message == GradeEmpty
  {
    if Blank(v) then Raised(GradeEmpty) else Accepted(Trim(v))
  }

  /** Each validator accepts its own output and returns it unchanged. */
  lemma ValidatorsIdempotent(v: string)
    ensures ValidateName(v).Accepted? ==> ValidateName(ValidateName(v).value) == ValidateName(v)
    ensures ValidatePhone(v).Accepted? ==> ValidatePhone(ValidatePhone(v).value) == ValidatePhone(v)
    ensures ValidateGrade(v).Accepted? ==> ValidateGrade(ValidateGrade(v).value) == ValidateGrade(v)
  {
  }
}
