/**
 * The voice assistant: resolving a spoken place to one of the application's
 * routes, wording answers about fitness data, acting on the command a
 * language model has parsed, and reporting speech-recognition errors.
 */
module VoiceNavigation {
  import opened Wrappers
  import opened Text
  import Seqs

  datatype Route = Route(path: string, name: string, aliases: seq<string>)

  /** `AVAILABLE_ROUTES`, in declaration order. */
  const Routes: seq<Route> := [
    Route("/", "Dashboard", ["home", "dashboard", "main", "start", "homepage"]),
    Route("/health-tracker", "Health Tracker", ["health", "fitness", "tracking", "metrics", "health tracker", "fitness data"]),
    Route("/consultation", "Consult Doctor", ["consult", "doctor", "specialist", "consultation", "medical consultation", "find doctor", "book doctor"]),
    Route("/symptoms", "Symptoms", ["symptoms", "symptom checker", "health symptoms", "check symptoms"]),
    Route("/medicine", "Medicine", ["medicine", "medications", "prescriptions", "drugs", "pharmacy"]),
    Route("/ai-doctor", "AI Doctor", ["ai doctor", "virtual doctor", "ai consultation", "ai health assistant"]),
    Route("/chat", "Chat with Doctor", ["chat", "doctor chat", "message doctor", "chat with doctor", "doctor consultation"]),
    Route("/diet-plan", "Diet Plan", ["diet", "meal plan", "nutrition", "food plan", "diet plan", "meal planning", "nutrition plan"])
  ]

  /** The keys of `AVAILABLE_ROUTES`. */
  const RouteKeys: seq<string> := ["/", "/health-tracker", "/consultation", "/symptoms", "/medicine", "/ai-doctor", "/chat", "/diet-plan"]

  /** The properties every plain object inherits from `Object.prototype`. */
  const PrototypeMembers: seq<string> := [
    "constructor", "__proto__", "__defineGetter__", "__defineSetter__", "__lookupGetter__", "__lookupSetter__",
    "hasOwnProperty", "isPrototypeOf", "propertyIsEnumerable", "toLocaleString", "toString", "valueOf"
  ]

  /** `isValidRoute` as written: `path in AVAILABLE_ROUTES`, which also holds for every inherited property. */
  function IsValidRouteAsWritten(path: string): (r: bool)
    ensures r <==> path in RouteKeys || path in PrototypeMembers
  {
    path in RouteKeys || path in PrototypeMembers
  }

  /** `isValidRoute` as intended: the path is one of the eight routes. */
  function IsValidRoute(path: string): (r: bool)
    ensures r <==> exists k :: 0 <= k < |Routes| && Routes[k].path == path
  {
    assert forall k :: 0 <= k < |Routes| ==> Routes[k].path == RouteKeys[k];
    path in RouteKeys
  }

  /** "constructor" passes the check as written and is the path of no route. */
  lemma ConstructorCountsAsRoute()
    ensures IsValidRouteAsWritten("constructor")
    ensures !IsValidRoute("constructor")
  {
    assert PrototypeMembers[0] == "constructor";
  }

  /** The intended check and the written one agree on everything but the inherited names. */
  lemma ValidityAgrees(path: string)
    requires path !in PrototypeMembers
    ensures IsValidRouteAsWritten(path) == IsValidRoute(path)
  {
    assert forall k :: 0 <= k < |Routes| ==> Routes[k].path == RouteKeys[k];
  }

  /** No two routes share a path. */
  lemma PathsDistinct()
    ensures forall i, j :: 0 <= i < j < |Routes| ==> Routes[i].path != Routes[j].path
  {
  }

  /** The spoken place as compared: lower case, surrounding white space removed. */
  function Normalize(location: string): string {
    Trim(Lower(location))
  }

  /** Route `k` of `routes` has the place `n` as an alias. */
  predicate ExactAt(routes: seq<Route>, n: string, k: int)
    requires 0 <= k < |routes|
  {
    n in routes[k].aliases
  }

  /** Route `k` of `routes` has an alias inside the place `n`. */
  predicate PartialAt(routes: seq<Route>, n: string, k: int)
    requires 0 <= k < |routes|
  {
    exists a :: 0 <= a < |routes[k].aliases| && Includes(n, routes[k].aliases[a])
  }

  /** Whether `n` contains one of `aliases`. */
  function AnyIncluded(n: string, aliases: seq<string>): (r: bool)
    ensures r <==> exists a :: 0 <= a < |aliases| && Includes(n, aliases[a])
  {
    if aliases == [] then false
    else
      var rest := AnyIncluded(n, aliases[1..]);
      assert forall a :: 1 <= a < |aliases| ==> aliases[a] == aliases[1..][a - 1];
      Includes(n, aliases[0]) || rest
  }

  /** The first route of `routes` from `i` on that has `n` as an alias, or `|routes|`. */
  function ExactRoute(routes: seq<Route>, n: string, i: nat): (k: nat)
    requires i <= |routes|
    ensures i <= k <= |routes|
    ensures k < |routes| ==> ExactAt(routes, n, k)
    ensures forall j :: i <= j < k ==> !ExactAt(routes, n, j)
    decreases |routes| - i
  {
    if i == |routes| then i else if n in routes[i].aliases then i else ExactRoute(routes, n, i + 1)
  }

  /** The first route of `routes` from `i` on with an alias inside `n`, or `|routes|`. */
  function PartialRoute(routes: seq<Route>, n: string, i: nat): (k: nat)
    requires i <= |routes|
    ensures i <= k <= |routes|
    ensures k < |routes| ==> PartialAt(routes, n, k)
    ensures forall j :: i <= j < k ==> !PartialAt(routes, n, j)
    decreases |routes| - i
  {
    if i == |routes| then i else if AnyIncluded(n, routes[i].aliases) then i else PartialRoute(routes, n, i + 1)
  }

  /**
   * The search of `determineTargetPath` over a table of routes: nothing for
   * an empty place; else the first route, in table order, with an alias
   * equal to the place; else the first with an alias inside it; else "BACK"
   * when it mentions going back.
   */
  function Target(routes: seq<Route>, location: string): (r: Option<string>)
    ensures location == "" ==> r == None
    ensures r.Some? && r.value != "BACK" ==> exists k :: 0 <= k < |routes| && routes[k].path == r.value
  {
    if location == "" then None
    else
      var n := Normalize(location);
      var e := ExactRoute(routes, n, 0);
      if e < |routes| then Some(routes[e].path)
      else
        var p := PartialRoute(routes, n, 0);
        if p < |routes| then Some(routes[p].path)
        else if Includes(n, "back") then Some("BACK")
        else None
  }

  /** `determineTargetPath`: the search over `AVAILABLE_ROUTES`. */
  function DetermineTargetPath(location: string): (r: Option<string>)
    ensures location == "" ==> r == None
    ensures r.Some? && r.value != "BACK" ==> IsValidRoute(r.value)
  {
    Target(Routes, location)
  }

  lemma FirstExact(routes: seq<Route>, n: string, k: int)
    requires 0 <= k < |routes| && ExactAt(routes, n, k)
    requires forall j :: 0 <= j < k ==> !ExactAt(routes, n, j)
    ensures ExactRoute(routes, n, 0) == k
  {
  }

  lemma FirstPartial(routes: seq<Route>, n: string, k: int)
    requires 0 <= k < |routes| && PartialAt(routes, n, k)
    requires forall j :: 0 <= j < k ==> !PartialAt(routes, n, j)
    ensures PartialRoute(routes, n, 0) == k
  {
  }

  /** An exact alias wins, and among exact aliases the earliest route. */
  lemma ExactMatchWins(location: string, k: int)
    requires location != "" && 0 <= k < |Routes| && ExactAt(Routes, Normalize(location), k)
    requires forall j :: 0 <= j < k ==> !ExactAt(Routes, Normalize(location), j)
    ensures DetermineTargetPath(location) == Some(Routes[k].path)
  {
    FirstExact(Routes, Normalize(location), k);
  }

  /** The place matches no alias of `routes` exactly. */
  lemma NoExact(routes: seq<Route>, n: string)
    requires forall j :: 0 <= j < |routes| ==> !ExactAt(routes, n, j)
    ensures ExactRoute(routes, n, 0) == |routes|
  {
  }

  /** With no exact alias, the earliest route with an alias inside the place wins. */
  lemma PartialMatchNext(location: string, k: int)
    requires location != "" && 0 <= k < |Routes| && PartialAt(Routes, Normalize(location), k)
    requires forall j :: 0 <= j < |Routes| ==> !ExactAt(Routes, Normalize(location), j)
    requires forall j :: 0 <= j < k ==> !PartialAt(Routes, Normalize(location), j)
    ensures DetermineTargetPath(location) == Some(Routes[k].path)
  {
    NoExact(Routes, Normalize(location));
    FirstPartial(Routes, Normalize(location), k);
  }

  /** Over a table with no route called "BACK", "BACK" comes only when no alias is inside the place and it says "back". */
  lemma BackWithoutAlias(routes: seq<Route>, location: string)
    requires forall k :: 0 <= k < |routes| ==> routes[k].path != "BACK"
    ensures Target(routes, location) == Some("BACK") <==>
      location != "" && (forall j :: 0 <= j < |routes| ==> !PartialAt(routes, Normalize(location), j)) &&
      Includes(Normalize(location), "back")
  {
    if location != "" {
      ExactIsPartial(routes, Normalize(location));
    }
  }

  /** "BACK" comes only when no alias at all is inside the place and it says "back". */
  lemma BackOnlyWithoutAlias(location: string)
    ensures DetermineTargetPath(location) == Some("BACK") <==>
      location != "" && (forall j :: 0 <= j < |Routes| ==> !PartialAt(Routes, Normalize(location), j)) &&
      Includes(Normalize(location), "back")
  {
    NoRouteIsBack();
    BackWithoutAlias(Routes, location);
  }

  lemma NoRouteIsBack()
    ensures forall k :: 0 <= k < |Routes| ==> Routes[k].path != "BACK"
  {
    assert forall k :: 0 <= k < |Routes| ==> Routes[k].path == RouteKeys[k];
  }

  /** An alias equal to the place is also inside it. */
  lemma ExactIsPartial(routes: seq<Route>, n: string)
    ensures forall k :: 0 <= k < |routes| && ExactAt(routes, n, k) ==> PartialAt(routes, n, k)
  {
    forall k | 0 <= k < |routes| && ExactAt(routes, n, k) ensures PartialAt(routes, n, k) {
      var a :| 0 <= a < |routes[k].aliases| && routes[k].aliases[a] == n;
      assert OccursAt(n, routes[k].aliases[a], 0);
    }
  }

  /** The assistant's fixed messages and toast titles. */
  const NoData: string := "No data available for the requested metric."
  const NoMetric: string := "That metric is not available."
  const UnknownPage: string := "the requested page"
  const NetworkFault: string := "Network error. Please check your connection."
  const NoMicrophone: string := "No microphone detected."
  const MicrophoneDenied: string := "Microphone access denied."
  const ServiceUnavailable: string := "Speech recognition service is not available."
  const LanguageUnsupported: string := "Language not supported."
  const GenericFault: string := "An error occurred. Please try again."
  const DefaultErrorText: string := "An error occurred while processing your request."
  const CouldNotProcess: string := "Sorry, I couldn't process that command. "
  const ProcessingErrorTitle: string := "Error Processing Command"
  const NotUnderstood: string := "I'm having trouble understanding the command. Please try again."
  const BadFormat: string := "The AI response was not in the expected format. Please try again."
  const Unsure: string := "I'm not quite sure what you want to do. Could you be more specific?"
  const NeedMoreTitle: string := "Need More Information"
  const BeSpecific: string := "Please try being more specific about what you'd like to do"
  const PageUnavailable: string := "I'm sorry, that page is not available. Available pages are: "
  const NavigationErrorTitle: string := "Navigation Error"
  const PageUnavailableDetail: string := "The requested page is not available in this application."
  const NavigatedTitle: string := "Navigation Successful"
  const NavigatingTo: string := "Navigating to "
  const NavigatedTo: string := "Navigated to "
  const AlreadyOn: string := "You are already on the "

  /** The fitness values a query can read: a metric name to its value. */
  function FormatValue(metric: string, value: int, grouped: string): (r: string)
    ensures metric == "steps" ==> r == grouped + " steps"
    ensures metric == "calories" ==> r == IntToString(value) + " calories"
    ensures metric == "distance" ==> r == IntToString(value) + " kilometers"
    ensures metric == "activeMinutes" ==> r == IntToString(value) + " active minutes"
    ensures metric !in ["steps", "calories", "distance", "activeMinutes"] ==> r == IntToString(value)
  {
    if metric == "steps" then grouped + " steps"
    else if metric == "calories" then IntToString(value) + " calories"
    else if metric == "distance" then IntToString(value) + " kilometers"
    else if metric == "activeMinutes" then IntToString(value) + " active minutes"
    else IntToString(value)
  }

  /**
   * `formatDataResponse`: without data, or without the metric, a fixed
   * apology; otherwise the sentence naming the time and the value.
   * `grouped` is the locale's digit-grouped rendering of the value.
   */
  function FormatDataResponse(metric: string, data: Option<map<string, int>>, timeContext: string,
                              grouped: int -> string): (r: string)
    ensures data.None? ==> r == NoData
    ensures data.Some? && metric !in data.value ==> r == NoMetric
    ensures data.Some? && metric in data.value ==>
      r == "For " + timeContext + ", you have " + FormatValue(metric, data.value[metric], grouped(data.value[metric])) + "."
  {
    if data.None? then NoData
    else if metric !in data.value then NoMetric
    else
      var value := data.value[metric];
      "For " + timeContext + ", you have " + FormatValue(metric, value, grouped(value)) + "."
  }

  function NameOf(path: string, i: nat): (r: Option<string>)
    requires i <= |Routes|
    ensures r.Some? <==> exists k :: i <= k < |Routes| && Routes[k].path == path
    ensures forall k :: i <= k < |Routes| && Routes[k].path == path ==> r == Some(Routes[k].name)
    decreases |Routes| - i
  {
    PathsDistinct();
    if i == |Routes| then None
    else if Routes[i].path == path then Some(Routes[i].name)
    else NameOf(path, i + 1)
  }

  /** `getPageDescription`: the route's name for a route, else UnknownPage. */
  function PageDescription(path: string): (r: string)
    ensures forall k :: 0 <= k < |Routes| && Routes[k].path == path ==> r == Routes[k].name
    ensures !IsValidRoute(path) ==> r == UnknownPage
  {
    var name := NameOf(path, 0);
    if name.Some? then name.value else UnknownPage
  }

  /**
   * The `name` of what an inherited property of `AVAILABLE_ROUTES` holds, as
   * a template literal prints it: `Object` for "constructor", `undefined` for
   * the prototype itself, and each inherited method's own name.
   */
  function InheritedName(member: string): string {
    if member == "constructor" then "Object"
    else if member == "__proto__" then "undefined"
    else member
  }

  /**
   * `getPageDescription` on the check as written: a route gives its name, an
   * inherited property the name of what it holds, anything else UnknownPage.
   */
  function PageDescriptionAsWritten(path: string): (r: string)
    ensures IsValidRoute(path) ==> r == PageDescription(path)
    ensures !IsValidRouteAsWritten(path) ==> r == UnknownPage
    ensures path == "constructor" ==> r == "Object"
  {
    if IsValidRoute(path) then PageDescription(path)
    else if path in PrototypeMembers then InheritedName(path)
    else ValidityAgrees(path); UnknownPage
  }

  /** The page names listed when a route is refused. */
  const AvailablePages: string :=
    "dashboard, health tracker, consult doctor, symptoms, medicine, ai doctor, chat with doctor, diet plan"

  /** The history after an accepted command: the last five earlier commands, then this one. */
  function NextHistory(history: seq<string>, command: string): (r: seq<string>)
    ensures |r| == (if |history| < 5 then |history| else 5) + 1 && r[|r| - 1] == command
    ensures |r| - 1 <= |history| && r[..|r| - 1] == history[|history| - (|r| - 1)..]
  {
    var kept := Seqs.LastN(history, 5);
    assert (kept + [command])[..|kept|] == kept;
    kept + [command]
  }

  /** A command the model has parsed; an empty `targetPath` is a missing one. */
  datatype Reply = Reply(intent: string, action: string, targetPath: string, confidence: real, response: string)

  /** What came back from the model: a request that threw, an answer that is not JSON, or a parsed reply. */
  datatype Answer = Unreachable(message: string) | Unparsable | Parsed(reply: Reply)

  /** A move of the router: to a path, or one step back. */
  datatype Navigation = GoTo(path: string) | GoBack

  datatype Toast = Toast(title: string, description: string, destructive: bool)

  /** The recognition error codes that have a message of their own. */
  const KnownErrors: seq<string> :=
    ["network", "audio-capture", "not-allowed", "service-not-allowed", "bad-grammar", "language-not-supported"]

  /** The recognition error message shown for an error code. */
  function RecognitionMessage(error: string): (r: string)
    ensures r != ""
    ensures error in KnownErrors <==> r != GenericFault
    ensures error == "network" ==> r == NetworkFault
    ensures error == "audio-capture" ==> r == NoMicrophone
    ensures error == "not-allowed" ==> r == MicrophoneDenied
    ensures error == "service-not-allowed" ==> r == ServiceUnavailable
    ensures error == "bad-grammar" || error == "language-not-supported" ==> r == LanguageUnsupported
  {
    if error == "network" then NetworkFault
    else if error == "audio-capture" then NoMicrophone
    else if error == "not-allowed" then MicrophoneDenied
    else if error == "service-not-allowed" then ServiceUnavailable
    else if error == "bad-grammar" || error == "language-not-supported" then LanguageUnsupported
    else GenericFault
  }

  /** Two known codes share a message only when both are the language codes. */
  lemma MessagesTellCodesApart(a: string, b: string)
    requires a in KnownErrors && b in KnownErrors && RecognitionMessage(a) == RecognitionMessage(b)
    ensures a == b || (a in ["bad-grammar", "language-not-supported"] && b in ["bad-grammar", "language-not-supported"])
  {
  }

  /** The error text of a request that threw. */
  function ErrorText(message: string): (r: string)
    ensures r != ""
    ensures message != "" ==> r == message
  {
    if message != "" then message else DefaultErrorText
  }

  predicate Navigates(reply: Reply) {
    reply.intent == "navigation" && reply.targetPath != ""
  }

  /** An accepted reply whose target is refused. */
  predicate Refused(reply: Reply) {
    reply.confidence > 0.3 && Navigates(reply) && !IsValidRoute(reply.targetPath)
  }

  /** The same refusal on the check as written. */
  predicate RefusedAsWritten(reply: Reply) {
    reply.confidence > 0.3 && Navigates(reply) && !IsValidRouteAsWritten(reply.targetPath)
  }

  /**
   * As written, a confident navigation to "constructor" is not refused: the
   * router moves there and the feedback names `Object`. The corrected check
   * refuses it.
   */
  lemma ConstructorNavigatesAsWritten(currentPath: string)
    requires currentPath != "constructor"
    ensures var reply := Reply("navigation", "", "constructor", 0.9, "");
      Refused(reply) && !RefusedAsWritten(reply) &&
      NavigationMoves(reply, currentPath) == [GoTo("constructor")] &&
      NavigatingTo + PageDescriptionAsWritten("constructor") == "Navigating to Object"
  {
    ConstructorCountsAsRoute();
  }

  /** Whether the reply moves the router: it navigates to a route other than the current one. */
  predicate Moving(reply: Reply, currentPath: string) {
    Navigates(reply) && reply.targetPath != currentPath
  }

  /** The router move of a reply that navigates elsewhere. */
  function NavigationMoves(reply: Reply, currentPath: string): seq<Navigation> {
    if Moving(reply, currentPath) then [GoTo(reply.targetPath)] else []
  }

  /** The success toast of a reply that navigates elsewhere, naming the page. */
  function NavigationToasts(reply: Reply, currentPath: string): seq<Toast> {
    if Moving(reply, currentPath) then [Toast(NavigatedTitle, NavigatedTo + PageDescription(reply.targetPath), false)] else []
  }

  /** The feedback after a confident reply: where it went, that it is already there, or the model's own words. */
  function NavigationFeedback(reply: Reply, currentPath: string): string {
    if Moving(reply, currentPath) then NavigatingTo + PageDescription(reply.targetPath)
    else if Navigates(reply) then AlreadyOn + PageDescription(reply.targetPath) + " page"
    else reply.response
  }

  /** The router moves a system command asks for. */
  function SystemMoves(reply: Reply): seq<Navigation> {
    if reply.intent != "system" then []
    else if reply.action == "back" then [GoBack]
    else if reply.action == "home" then [GoTo("/")]
    else []
  }

  /**
   * The feedback and toast of an answer that is not acted on: a request that
   * threw, an answer that is not JSON, or a reply of confidence 0.3 or less.
   */
  function Apology(answer: Answer): (r: Option<(string, Toast)>)
    ensures r.None? <==> answer.Parsed? && answer.reply.confidence > 0.3
    ensures answer.Unreachable? ==>
      r == Some((CouldNotProcess + ErrorText(answer.message),
                 Toast(ProcessingErrorTitle, ErrorText(answer.message), true)))
    ensures r.Some? ==> r.value.1.destructive
  {
    match answer
    case Unreachable(message) =>
      Some((CouldNotProcess + ErrorText(message),
            Toast(ProcessingErrorTitle, ErrorText(message), true)))
    case Unparsable =>
      Some((NotUnderstood,
            Toast(ProcessingErrorTitle, BadFormat, true)))
    case Parsed(reply) =>
      if reply.confidence > 0.3 then None
      else Some((Unsure,
                 Toast(NeedMoreTitle, BeSpecific, true)))
  }

  /** The state of the voice assistant panel. */
  class VoiceAssistant {
    var listening: bool
    var processing: bool
    var feedback: string
    var showHelp: bool
    var history: seq<string>
    var moves: seq<Navigation>
    var toasts: seq<Toast>

    constructor ()
      ensures !listening && !processing && feedback == "" && !showHelp
      ensures history == [] && moves == [] && toasts == []
    {
      listening, processing, feedback, showHelp := false, false, "", false;
      history, moves, toasts := [], [], [];
    }

    /**
     * `processCommand` after the model has answered: a confident reply
     * (confidence above 0.3) is acted on and recorded in the history; a
     * refused route stops before any move or history entry; the router moves
     * only to a route other than the current one.
     */
    method ProcessCommand(command: string, answer: Answer, currentPath: string)
      modifies this
      ensures !processing && listening == old(listening)
      ensures Apology(answer).Some? ==>
        feedback == Apology(answer).value.0 && toasts == old(toasts) + [Apology(answer).value.1] &&
        history == old(history) && moves == old(moves) && showHelp == old(showHelp)
      ensures Apology(answer).None? ==> Acted(answer.reply, command, currentPath)
    {
      var apology := Apology(answer);
      if apology.Some? {
        Report(apology.value.0, apology.value.1);
      } else {
        Act(answer.reply, command, currentPath);
      }
      processing := false;
    }

    /** Shows `message` and raises `toast`, changing nothing else. */
    method Report(message: string, toast: Toast)
      modifies this
      ensures feedback == message && toasts == old(toasts) + [toast]
      ensures listening == old(listening) && processing == old(processing)
      ensures history == old(history) && moves == old(moves) && showHelp == old(showHelp)
    {
      feedback := message;
      toasts := toasts + [toast];
    }

    /**
     * The new state after a confident reply: a refused route only explains
     * itself; otherwise the command joins the history, the router moves to a
     * route other than the current one, and a system command acts.
     */
    twostate predicate Acted(reply: Reply, command: string, currentPath: string)
      reads this`listening, this`feedback, this`toasts, this`history, this`moves, this`showHelp
    {
      && listening == old(listening)
      && (Refused(reply) ==> RefusedRoute())
      && (!Refused(reply) ==> Followed(reply, command, currentPath))
    }

    twostate predicate RefusedRoute()
      reads this`listening, this`feedback, this`toasts, this`history, this`moves, this`showHelp
    {
      && feedback == PageUnavailable + AvailablePages
      && toasts == old(toasts) + [Toast(NavigationErrorTitle, PageUnavailableDetail, true)]
      && history == old(history) && moves == old(moves) && showHelp == old(showHelp)
    }

    twostate predicate Followed(reply: Reply, command: string, currentPath: string)
      reads this`listening, this`feedback, this`toasts, this`history, this`moves, this`showHelp
    {
      && history == NextHistory(old(history), command)
      && showHelp == (old(showHelp) || (reply.intent == "system" && reply.action == "help"))
      && moves == old(moves) + NavigationMoves(reply, currentPath) + SystemMoves(reply)
      && toasts == old(toasts) + NavigationToasts(reply, currentPath)
      && feedback == NavigationFeedback(reply, currentPath)
    }

    method Act(reply: Reply, command: string, currentPath: string)
      requires reply.confidence > 0.3
      modifies this
      ensures Acted(reply, command, currentPath)
      ensures processing == old(processing)
    {
      if Navigates(reply) && !IsValidRoute(reply.targetPath) {
        feedback := PageUnavailable + AvailablePages;
        toasts := toasts + [Toast(NavigationErrorTitle, PageUnavailableDetail, true)];
      } else {
        Follow(reply, command, currentPath);
      }
    }

    method Follow(reply: Reply, command: string, currentPath: string)
      modifies this
      ensures Followed(reply, command, currentPath)
      ensures processing == old(processing) && listening == old(listening)
    {
      Navigate(reply, currentPath);
      SystemCommand(reply);
      Remember(command);
    }

    /** An acted-on command joins the history. */
    method Remember(command: string)
      modifies this`history
      ensures history == NextHistory(old(history), command)
    {
      history := NextHistory(history, command);
    }

    /** A system command: help opens the help panel, back and home move the router. */
    method SystemCommand(reply: Reply)
      modifies this
      ensures moves == old(moves) + SystemMoves(reply)
      ensures showHelp == (old(showHelp) || (reply.intent == "system" && reply.action == "help"))
      ensures feedback == old(feedback) && toasts == old(toasts) && history == old(history)
      ensures processing == old(processing) && listening == old(listening)
    {
      if reply.intent == "system" {
        if reply.action == "help" {
          showHelp := true;
        } else if reply.action == "back" {
          moves := moves + [GoBack];
        } else if reply.action == "home" {
          moves := moves + [GoTo("/")];
        }
      }
    }

    method Navigate(reply: Reply, currentPath: string)
      modifies this
      ensures moves == old(moves) + NavigationMoves(reply, currentPath)
      ensures toasts == old(toasts) + NavigationToasts(reply, currentPath)
      ensures feedback == NavigationFeedback(reply, currentPath)
      ensures processing == old(processing) && listening == old(listening)
      ensures history == old(history) && showHelp == old(showHelp)
    {
      feedback := reply.response;
      if Navigates(reply) {
        if reply.targetPath != currentPath {
          moves := moves + [GoTo(reply.targetPath)];
          var pageName := PageDescription(reply.targetPath);
          feedback := NavigatingTo + pageName;
          toasts := toasts + [Toast(NavigatedTitle, NavigatedTo + pageName, false)];
        } else {
          feedback := AlreadyOn + PageDescription(reply.targetPath) + " page";
        }
      }
    }

    /**
     * `handleRecognitionError`: listening stops; a deliberate stop
     * ("aborted", "no-speech") clears the feedback silently, any other code
     * shows its message and raises a toast.
     */
    method HandleRecognitionError(error: string)
      modifies this
      ensures !listening
      ensures processing == old(processing) && showHelp == old(showHelp)
      ensures history == old(history) && moves == old(moves)
      ensures error == "aborted" || error == "no-speech" ==> feedback == "" && toasts == old(toasts)
      ensures !(error == "aborted" || error == "no-speech") ==>
        feedback == RecognitionMessage(error) && toasts == old(toasts) + [Toast("Error", RecognitionMessage(error), true)]
    {
      if error == "aborted" || error == "no-speech" {
        listening := false;
        feedback := "";
        return;
      }
      listening := false;
      var message := RecognitionMessage(error);
      feedback := message;
      toasts := toasts + [Toast("Error", message, true)];
    }
  }

  /**
   * Every move a confident reply that is not refused makes is a step back or
   * a move to one of the eight routes.
   */
  lemma MovesStayOnRoutes(reply: Reply, currentPath: string)
    requires reply.confidence > 0.3 && !Refused(reply)
    ensures forall m :: m in NavigationMoves(reply, currentPath) + SystemMoves(reply) ==>
      m == GoBack || exists k :: 0 <= k < |Routes| && m == GoTo(Routes[k].path)
  {
    assert Routes[0].path == "/";
  }
}
