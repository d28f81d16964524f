/**
 * How the browser's checks (src/sections/Footer.tsx:26-46) relate to the
 * server's (server/main.py:34-56).  The browser posts the fields as typed;
 * the server strips them again before checking.
 */
module ClientServer {
  import opened Wrappers
  import opened Text
  import opened PhonePattern
  import opened Footer
  import opened Server

  /** Every phone the browser accepts is accepted by the server, which stores the same trimmed value. */
  lemma ClientPhoneAcceptedByServer(phone: string)
    requires IsMobileNumber(Trim(phone))
    ensures ValidatePhone(phone) == Accepted(Trim(phone))
  {
  }

  /** The converse fails: the server takes any eleven digits after a 1, the browser only 13-19. */
  lemma ServerPhoneRuleIsWeaker()
    ensures ValidatePhone("12345678901").Accepted?
    ensures !TestMobile(Trim("12345678901"))
  {
  }

  /** A one-character name passes the browser and is refused by the server. */
  lemma ClientNameRuleIsWeaker()
    ensures Validate(FormData("王", "13800138000", "三年级")) == None
    ensures ValidateName("王") == Raised(NameTooShort)
  {
  }

  /**
   * The body a valid form posts is accepted field by field, except that
   * the name is accepted exactly when it has two characters or more once
   * trimmed; every accepted field is stored trimmed.
   */
  lemma PostedFormOnServer(f: FormData)
    requires Validate(f) == None
    ensures ValidatePhone(f.phone) == Accepted(Trim(f.phone))
    ensures ValidateGrade(f.grade) == Accepted(Trim(f.grade))
    ensures ValidateName(f.name).Accepted? <==> |Trim(f.name)| >= 2
    ensures ValidateName(f.name).Raised? ==> ValidateName(f.name).message == NameTooShort
  {
  }

  /** Conversely, a field the server refuses as blank is refused by the browser too. */
  lemma ServerBlankImpliesClientRejects(f: FormData)
    requires ValidateName(f.name) == Raised(NameEmpty) || ValidatePhone(f.phone) == Raised(PhoneEmpty)
          || ValidateGrade(f.grade) == Raised(GradeEmpty)
    ensures Validate(f).Some?
  {
  }
}
