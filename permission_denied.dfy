/** The texts of the permission-denied notice (src/components/PermissionDeniedNotification.tsx). */
module PermissionDenied {
  import opened Text

  /** Position `i` is matched by `\b\w`: a word character not preceded by one. */
  predicate StartsWord(s: string, i: int)
    requires 0 <= i < |s|
  {
    IsWordChar(s[i]) && (i == 0 || !IsWordChar(s[i - 1]))
  }

  /** `s.replace(/\b\w/g, l => l.toUpperCase())`. */
  function CapitalizeWords(s: string): (r: string)
    ensures |r| == |s|
    ensures forall i :: 0 <= i < |s| ==> r[i] == if StartsWord(s, i) then UpperChar(s[i]) else s[i]
  {
    seq(|s|, i requires 0 <= i < |s| => if StartsWord(s, i) then UpperChar(s[i]) else s[i])
  }

  /** The role strings with a fixed display name. */
  predicate IsNamedRole(role: string) {
    role == "archive_team" || role == "operations_team" || role == "core_banking_team"
    || role == "core_banking" || role == "loan_admin" || role == "admin"
  }

  /** `getRoleDisplayName`. */
  function GetRoleDisplayName(role: string): string {
    if role == "archive_team" then "Archive Team"
    else if role == "operations_team" then "Operations Team"
    else if role == "core_banking_team" || role == "core_banking" then "Core Banking Team"
    else if role == "loan_admin" then "Loan Administrator"
    else if role == "admin" then "Administrator"
    else CapitalizeWords(ReplaceFirst(role, '_', ' '))
  }

  /** Both spellings of the core banking role display alike. */
  lemma CoreBankingSpellingsAgree()
    ensures GetRoleDisplayName("core_banking") == GetRoleDisplayName("core_banking_team") == "Core Banking Team"
  {
  }

  /** What capitalising the words of `t` keeps: every character up to case, every underscore and
      space, and no word left starting with a lower-case letter. */
  lemma CapitalizeWordsKeeps(t: string)
    ensures var d := CapitalizeWords(t);
            && (forall i :: 0 <= i < |t| ==> LowerChar(d[i]) == LowerChar(t[i]))
            && (forall i :: 0 <= i < |t| && (t[i] == '_' || t[i] == ' ') ==> d[i] == t[i])
            && (forall i :: 0 <= i < |t| && StartsWord(t, i) ==> !IsLowerLetter(d[i]))
  {
  }

  /** For a role without a fixed name the display keeps every character up to case, except that the
      first underscore becomes a space; later underscores stay; and no word starts with a lower-case letter. */
  lemma UnnamedRoleDisplay(role: string)
    requires !IsNamedRole(role)
    ensures var d := GetRoleDisplayName(role);
            var k := IndexOfChar(role, '_');
            && |d| == |role|
            && (k >= 0 ==> d[k] == ' ')
            && (forall i :: 0 <= i < |role| && i != k ==> LowerChar(d[i]) == LowerChar(role[i]))
            && (forall i :: 0 <= i < |role| && i != k && (role[i] == '_' || role[i] == ' ') ==> d[i] == role[i])
            && (forall i :: 0 <= i < |d| && StartsWord(ReplaceFirst(role, '_', ' '), i) ==> !IsLowerLetter(d[i]))
  {
    assert GetRoleDisplayName(role) == CapitalizeWords(ReplaceFirst(role, '_', ' '));
    CapitalizedReplacement(role);
  }

  /** The character-level facts behind `UnnamedRoleDisplay`, for any string. */
  lemma CapitalizedReplacement(role: string)
    ensures var t := ReplaceFirst(role, '_', ' ');
            var d := CapitalizeWords(t);
            var k := IndexOfChar(role, '_');
            && |d| == |role|
            && (k >= 0 ==> d[k] == ' ')
            && (forall i :: 0 <= i < |role| && i != k ==> LowerChar(d[i]) == LowerChar(role[i]))
            && (forall i :: 0 <= i < |role| && i != k && (role[i] == '_' || role[i] == ' ') ==> d[i] == role[i])
            && (forall i :: 0 <= i < |d| && StartsWord(t, i) ==> !IsLowerLetter(d[i]))
  {
    var t := ReplaceFirst(role, '_', ' ');
    ReplaceFirstElems(role, '_', ' ');
    CapitalizeWordsKeeps(t);
  }

  /** No underscore, and every word starts with something other than a lower-case letter. */
  predicate WordsCapitalized(s: string) {
    (forall i :: 0 <= i < |s| ==> s[i] != '_')
    && forall i :: 0 <= i < |s| && StartsWord(s, i) ==> !IsLowerLetter(s[i])
  }

  /** A name with no underscore and no lower-case word start displays as itself. */
  lemma {:induction false} DisplayOfFinishedName(s: string)
    requires !IsNamedRole(s) && WordsCapitalized(s)
    ensures GetRoleDisplayName(s) == s
  {
    assert GetRoleDisplayName(s) == CapitalizeWords(ReplaceFirst(s, '_', ' '));
    ReplaceFirstAt(s, '_', ' ');
    assert ReplaceFirst(s, '_', ' ') == s;
    assert CapitalizeWords(s) == s;
  }

  /** A run of letters starting with an upper-case one is a capitalised word. */
  lemma CapitalizedWord(w: string)
    requires |w| > 0 && IsUpperLetter(w[0])
    requires forall i :: 0 <= i < |w| ==> IsUpperLetter(w[i]) || IsLowerLetter(w[i])
    ensures WordsCapitalized(w)
  {
    forall i | 0 < i < |w|
      ensures !StartsWord(w, i)
    {
      assert IsWordChar(w[i - 1]);
    }
  }

  /** Two capitalised texts joined by a space form a capitalised text. */
  lemma CapitalizedJoin(a: string, b: string)
    requires WordsCapitalized(a) && WordsCapitalized(b)
    ensures WordsCapitalized(a + " " + b)
  {
    var t := a + " " + b;
    forall i | 0 <= i < |t| && StartsWord(t, i)
      ensures !IsLowerLetter(t[i])
    {
      if i < |a| {
        assert t[i] == a[i];
        if i > 0 {
          assert t[i - 1] == a[i - 1];
        }
        assert StartsWord(a, i);
      } else if i > |a| {
        var j := i - |a| - 1;
        assert t[i] == b[j];
        if j > 0 {
          assert t[i - 1] == b[j - 1];
        }
        assert StartsWord(b, j);
      }
    }
    forall i | 0 <= i < |t|
      ensures t[i] != '_'
    {
      if i < |a| {
        assert t[i] == a[i];
      } else if i > |a| {
        assert t[i] == b[i - |a| - 1];
      }
    }
  }

  /** The required-role text the dashboard passes for approve and reject displays as itself. */
  lemma OperationsTextDisplaysAsItself()
    ensures GetRoleDisplayName("Operations Team") == "Operations Team"
  {
    CapitalizedWord("Operations");
    CapitalizedWord("Team");
    CapitalizedJoin("Operations", "Team");
    assert "Operations" + " " + "Team" == "Operations Team";
    DisplayOfFinishedName("Operations Team");
  }

  /** The required-role text the dashboard passes for disburse displays as itself. */
  lemma CoreBankingTextDisplaysAsItself()
    ensures GetRoleDisplayName("Core Banking Team") == "Core Banking Team"
  {
    CapitalizedWord("Core");
    CapitalizedWord("Banking");
    CapitalizedWord("Team");
    CapitalizedJoin("Core", "Banking");
    assert "Core" + " " + "Banking" == "Core Banking";
    CapitalizedJoin("Core Banking", "Team");
    assert "Core Banking" + " " + "Team" == "Core Banking Team";
    DisplayOfFinishedName("Core Banking Team");
  }

  /** The required-role text the dashboard passes for any other action displays as itself. */
  lemma AdministratorTextDisplaysAsItself()
    ensures GetRoleDisplayName("Administrator") == "Administrator"
  {
    CapitalizedWord("Administrator");
    DisplayOfFinishedName("Administrator");
  }

  /** `getActionDisplayName` of the notice. */
  function GetActionDisplayName(action: string): string {
    if action == "create_request" then "create new requests"
    else if action == "approve" then "approve requests"
    else if action == "reject" then "reject requests"
    else if action == "disburse" then "disburse requests"
    else ReplaceFirst(action, '_', ' ')
  }

  /** An action without a fixed phrase displays with its first underscore, and only that one, made a space. */
  lemma UnnamedActionDisplay(action: string)
    requires action != "create_request" && action != "approve" && action != "reject" && action != "disburse"
    ensures var k := IndexOfChar(action, '_');
            GetActionDisplayName(action) == if k == -1 then action else action[..k] + " " + action[k + 1..]
  {
    ReplaceFirstAt(action, '_', ' ');
  }

  const RolePrefix := "Your current role ("
  const NoPermission := ") does not have permission to "
  const OnlyPrefix := ". Only "
  const MembersSuffix := " members can perform this action."

  /** The explanation sentence built when no explicit message is supplied. */
  function PermissionTemplate(userRole: string, attemptedAction: string, requiredRole: string): string {
    RolePrefix + GetRoleDisplayName(userRole) + NoPermission + GetActionDisplayName(attemptedAction)
    + OnlyPrefix + GetRoleDisplayName(requiredRole) + MembersSuffix
  }

  /** `getPermissionMessage`: a non-empty supplied message wins. */
  function GetPermissionMessage(message: string, userRole: string, attemptedAction: string, requiredRole: string): (text: string)
    ensures message != "" ==> text == message
    ensures message == "" ==> text == PermissionTemplate(userRole, attemptedAction, requiredRole)
  {
    if message != "" then message else PermissionTemplate(userRole, attemptedAction, requiredRole)
  }

  /** A supplied message is shown as it is; without one the text names the user's role, the action and the role
      required. */
  lemma TemplateNamesRolesAndAction(userRole: string, attemptedAction: string, requiredRole: string)
    ensures forall message :: message != "" ==>
              GetPermissionMessage(message, userRole, attemptedAction, requiredRole) == message
    ensures var text := GetPermissionMessage("", userRole, attemptedAction, requiredRole);
            && Includes(text, GetRoleDisplayName(userRole))
            && Includes(text, GetActionDisplayName(attemptedAction))
            && Includes(text, GetRoleDisplayName(requiredRole))
  {
    NamesEachPart(RolePrefix, GetRoleDisplayName(userRole), NoPermission, GetActionDisplayName(attemptedAction),
                  OnlyPrefix, GetRoleDisplayName(requiredRole), MembersSuffix);
  }

  /** Each of the three filled-in parts of a seven-part sentence occurs in it. */
  lemma NamesEachPart(p1: string, user: string, p2: string, act: string, p3: string, req: string, p4: string)
    ensures var text := p1 + user + p2 + act + p3 + req + p4;
            Includes(text, user) && Includes(text, act) && Includes(text, req)
  {
    var text := p1 + user + p2 + act + p3 + req + p4;
    assert text == p1 + user + (p2 + act + p3 + req + p4);
    IncludesMiddle(p1, user, p2 + act + p3 + req + p4);
    assert text == p1 + user + p2 + act + (p3 + req + p4);
    IncludesMiddle(p1 + user + p2, act, p3 + req + p4);
    IncludesMiddle(p1 + user + p2 + act + p3, req, p4);
  }

  const ArchiveAdvice := "As an Archive Team member, you can create new withdrawal requests but cannot approve, reject, or disburse them."
  const OperationsAdvice := "As an Operations Team member, you can approve or reject requests in Technical Review stage, but cannot create or disburse them."
  const CoreBankingAdvice := "As a Core Banking Team member, you can disburse approved requests but cannot create, approve, or reject them."
  const LoanAdminAdvice := "As a Loan Administrator, you have view-only access to monitor all requests but cannot perform any actions."
  const DefaultAdvice := "Please contact your system administrator if you believe you should have access to this feature."

  /** `getRoleSpecificAdvice`. */
  function GetRoleSpecificAdvice(userRole: string): string {
    if userRole == "archive_team" then ArchiveAdvice
    else if userRole == "operations_team" then OperationsAdvice
    else if userRole == "core_banking_team" || userRole == "core_banking" then CoreBankingAdvice
    else if userRole == "loan_admin" then LoanAdminAdvice
    else DefaultAdvice
  }

  /** The administrator, the observer and every unknown role get the default advice, and only they do. */
  lemma DefaultAdviceRoles(userRole: string)
    ensures GetRoleSpecificAdvice(userRole) == DefaultAdvice <==> !IsNamedRole(userRole) || userRole == "admin"
  {
    assert ArchiveAdvice != DefaultAdvice && OperationsAdvice != DefaultAdvice;
    assert CoreBankingAdvice != DefaultAdvice && LoanAdminAdvice != DefaultAdvice;
  }
}
