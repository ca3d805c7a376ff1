/**
  The canned replies of backend/app/services/ai/smart_reply.py: nine ordered
  rules, each a pattern `\b(w1|w2|...)\b` (a whole-word occurrence of one of
  a list of literal phrases) and a fixed answer. The message is lowercased
  and stripped, and the answer of the first rule that matches is returned.
*/
module SmartReply {
  import opened Wrappers
  import Text

  /** The characters of Python's `\w` in the ASCII and Latin-1 ranges. */
  predicate IsWordChar(c: char) {
    ('a' <= c <= 'z') || ('A' <= c <= 'Z') || ('0' <= c <= '9') || c == '_'
    || c == '\U{00AA}' || c == '\U{00B2}' || c == '\U{00B3}' || c == '\U{00B5}' || c == '\U{00B9}'
    || c == '\U{00BA}' || ('\U{00BC}' <= c <= '\U{00BE}')
    || ('\U{00C0}' <= c <= '\U{00FF}' && c != '\U{00D7}' && c != '\U{00F7}')
  }

  /** `\b` at position `p` of `s`: a word character on exactly one side. */
  predicate Boundary(s: string, p: nat)
    requires p <= |s|
  {
    (p > 0 && IsWordChar(s[p - 1])) != (p < |s| && IsWordChar(s[p]))
  }

  /** `alt` occurs in `s` at position `i`, as a whole word. */
  predicate WordAt(s: string, alt: string, i: nat) {
    i + |alt| <= |s| && s[i..i + |alt|] == alt && Boundary(s, i) && Boundary(s, i + |alt|)
  }

  /** `re.search(r"\b(alt0|alt1|...)\b", s)` succeeds. */
  predicate Matches(s: string, alts: seq<string>) {
    exists k, i :: 0 <= k < |alts| && 0 <= i <= |s| && WordAt(s, alts[k], i)
  }

  /** The nine fixed answers, one per rule. */
  datatype Reply = Greeting | Thanks | Farewell | Billing | Credentials | Advisor | Shop | Moving | Outage

  function ReplyText(r: Reply): string {
    match r
    case Greeting => "Bonjour ! Je suis l'assistant virtuel de Free. Comment puis-je vous aider aujourd'hui ?"
    case Thanks => "Je vous en prie ! Ravi d'avoir pu vous aider. Avez-vous d'autres questions ?"
    case Farewell => "Au revoir ! Toute l'équipe Free vous souhaite une excellente journée."
    case Billing => "Vous pouvez consulter, télécharger et payer vos factures directement sur votre Espace Abonné : https://subscribe.free.fr/login/\n\nRubrique 'Mon abonnement' > 'Mes factures'."
    case Credentials => "Pour récupérer vos identifiants ou réinitialiser votre mot de passe, rendez-vous sur la page de connexion de l'Espace Abonné et cliquez sur 'Mot de passe oublié'."
    case Advisor => "Si je ne parviens pas à vous aider, vous pouvez contacter nos conseillers au 3244 (appel gratuit depuis une ligne Freebox) ou via l'assistance en visio Face to Free."
    case Shop => "Trouvez la boutique Free (Free Center) la plus proche de chez vous ici : https://www.free.fr/boutiques/"
    case Moving => "Vous déménagez ? Déclarez votre déménagement directement dans votre Espace Abonné, rubrique 'Mon abonnement' > 'Déménager mon abonnement'. Pensez à le faire 15 jours avant !"
    case Outage => "Vous pouvez vérifier l'état du réseau Free dans votre zone sur : https://www.free-reseau.fr/ ou sur votre Espace Abonné."
  }

  datatype Rule = Rule(alternatives: seq<string>, reply: Reply)

  /** The rules in the order they are tried. */
  const Rules: seq<Rule> := [
    Rule(["bonjour", "salut", "hello", "coucou", "hey"], Greeting),
    Rule(["merci", "remercie", "cimer", "top", "super"], Thanks),
    Rule(["au revoir", "bye", "adieu", "a+", "bonne journée", "bonne journee", "bonne soirée", "bonne soiree"], Farewell),
    Rule(["facture", "payer", "paiement", "prélèvement", "montant"], Billing),
    Rule(["mot de passe", "mdp", "password", "identifiant", "connexion", "connecter"], Credentials),
    Rule(["humain", "personne", "agent", "conseiller", "téléphone", "appeler", "3244"], Advisor),
    Rule(["boutique", "magasin", "center", "shop", "agence"], Shop),
    Rule(["déménagement", "déménager", "démenagement", "demenager"], Moving),
    Rule(["panne générale", "incident", "coupure générale"], Outage)
  ]

  /** `message.lower().strip()`. */
  function Normalize(message: string): string {
    Text.Strip(Text.Lower(message))
  }

  /** The index of the first rule from index `i` on whose pattern matches
      `s`, or `|rules|` when none does. */
  function FirstMatch(s: string, rules: seq<Rule>, i: nat): (r: nat)
    requires i <= |rules|
    ensures i <= r <= |rules|
    ensures r < |rules| ==> Matches(s, rules[r].alternatives)
    ensures forall l :: i <= l < r ==> !Matches(s, rules[l].alternatives)
    decreases |rules| - i
  {
    if i == |rules| then |rules|
    else if Matches(s, rules[i].alternatives) then i
    else FirstMatch(s, rules, i + 1)
  }

  /** Which answer `get_quick_response` gives, if any. */
  function QuickReply(message: string): Option<Reply> {
    var j := FirstMatch(Normalize(message), Rules, 0);
    if j < |Rules| then Some(Rules[j].reply) else None
  }

  /** `get_quick_response`: the text of that answer. */
  function QuickResponse(message: string): Option<string> {
    match QuickReply(message)
    case None => None
    case Some(r) => Some(ReplyText(r))
  }

  /** The first matching rule of `rules`, stated without the search. */
  lemma FirstMatchIsFirst(s: string, rules: seq<Rule>)
    ensures var j := FirstMatch(s, rules, 0);
      && (j == |rules| <==> forall l :: 0 <= l < |rules| ==> !Matches(s, rules[l].alternatives))
      && (j < |rules| ==> exists i ::
            (0 <= i < |rules| && Matches(s, rules[i].alternatives) && rules[i] == rules[j]
             && forall l :: 0 <= l < i ==> !Matches(s, rules[l].alternatives)))
  {
    var j := FirstMatch(s, rules, 0);
    if j < |rules| {
      assert Matches(s, rules[j].alternatives);
    }
  }

  /** The answer is that of the lowest-index matching rule, and there is none
      exactly when no rule matches the normalised message. */
  lemma QuickReplyFirstMatch(message: string)
    ensures QuickReply(message).None? <==> forall j :: 0 <= j < |Rules| ==> !Matches(Normalize(message), Rules[j].alternatives)
    ensures QuickReply(message).Some? ==> exists j ::
              (0 <= j < |Rules| && Matches(Normalize(message), Rules[j].alternatives)
               && QuickReply(message).value == Rules[j].reply
               && forall l :: 0 <= l < j ==> !Matches(Normalize(message), Rules[l].alternatives))
  {
    FirstMatchIsFirst(Normalize(message), Rules);
  }

  /** Every text returned is the fixed text of a rule, and `None` comes only
      from a message no rule matches. */
  lemma QuickResponseIsFixed(message: string)
    ensures QuickResponse(message).Some? ==>
      exists j :: 0 <= j < |Rules| && QuickResponse(message).value == ReplyText(Rules[j].reply)
    ensures QuickResponse(message).None? <==> QuickReply(message).None?
  {
    if QuickReply(message).Some? {
      var j := FirstMatch(Normalize(message), Rules, 0);
      assert QuickResponse(message).value == ReplyText(Rules[j].reply);
    }
  }

  /** Messages that normalise alike get the same answer. */
  lemma QuickResponseDependsOnNormalForm(a: string, b: string)
    requires Normalize(a) == Normalize(b)
    ensures QuickResponse(a) == QuickResponse(b)
  {
  }

  lemma LowerBonjour()
    ensures Text.Lower("Bonjour") == "bonjour"
  {
    var l := Text.Lower("Bonjour");
    assert l[0] == 'b';
    assert forall i :: 1 <= i < 7 ==> l[i] == "Bonjour"[i];
  }

  /** "Bonjour" is answered with the greeting. */
  lemma BonjourGreets()
    ensures QuickReply("Bonjour") == Some(Greeting)
  {
    LowerBonjour();
    Text.StripOfTrimmed("bonjour");
    var s := "bonjour";
    assert Rules[0].alternatives[0] == s;
    assert WordAt(s, Rules[0].alternatives[0], 0);
    assert Matches(s, Rules[0].alternatives);
  }
}
