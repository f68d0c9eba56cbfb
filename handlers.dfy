/**
 * The three API endpoints: the body of each `try` block, the `except`
 * clauses that turn an exception into an error message, and the JSON reply
 * with its HTTP status. The language model, `json.loads`, the clock and
 * Python's rendering of containers are supplied as `Services`.
 */
module Handlers {
  import opened Wrappers
  import opened Text
  import opened Json
  import opened Sanitizer
  import opened Prompts

  /**
   * What the handlers call but this model does not implement:
   * `complete` is `model.generate_content(prompt).text` (an error carries
   * `str(e)`), `loads` is `json.loads` (an error is the exception it raises:
   * a `JSONDecodeError` for malformed text, another exception such as the
   * `ValueError` for an integer literal past the digit limit otherwise),
   * `now` is `datetime.now().isoformat()`, and `repr` is `str()` of a list
   * or a dictionary.
   */
  datatype Services = Services(
    complete: string -> Result<string, string>,
    loads: string -> Result<Json, Raised>,
    now: string,
    repr: Json -> string)

  /** An exception raised inside a `try` block, with its `str(e)`. */
  datatype Raised = JsonDecodeError(msg: string) | OtherException(msg: string)

  /** Any failure of a step that does not decode JSON. */
  function Lift<T>(r: Result<T, string>): (q: Result<T, Raised>)
    ensures r.Ok? ==> q == Ok(r.value)
    ensures r.Err? ==> q == Err(OtherException(r.error))
  {
    match r
    case Ok(v) => Ok(v)
    case Err(m) => Err(OtherException(m))
  }

  const ParseFailureMessage: string := "Failed to parse roadmap data. Please try again."
  const ChatFailureMessage: string := "Failed to get response. Please try again."

  /** `v` is what `fields.get(key, default)` returns. */
  ghost predicate ReadAs(fields: map<string, Json>, key: string, default: Json, v: Json) {
    (key in fields ==> v == fields[key]) && (key !in fields ==> v == default)
  }

  // ---------------------------------------------------------------- roadmap

  /** The five profile fields of a roadmap request, as found in the body. */
  datatype Profile = Profile(name: Json, education: Json, interests: Json, skills: Json, goals: Json)

  /**
   * `data.get(field, '')` for each profile field. Only a dictionary body can
   * be read; a missing field becomes the empty string.
   */
  function ReadProfile(data: Json): (r: Result<Profile, string>)
    ensures r.Ok? <==> data.JObj?
    ensures !data.JObj? ==> r == Err(NoGetMessage(data))
    ensures r.Ok? ==>
      ReadAs(data.fields, "name", JStr(""), r.value.name) &&
      ReadAs(data.fields, "education", JStr(""), r.value.education) &&
      ReadAs(data.fields, "interests", JStr(""), r.value.interests) &&
      ReadAs(data.fields, "skills", JStr(""), r.value.skills) &&
      ReadAs(data.fields, "goals", JStr(""), r.value.goals)
  {
    match data
    case JObj(f) =>
      Ok(Profile(Lookup(f, "name", JStr("")), Lookup(f, "education", JStr("")), Lookup(f, "interests", JStr("")),
                 Lookup(f, "skills", JStr("")), Lookup(f, "goals", JStr(""))))
    case _ => Err(NoGetMessage(data))
  }

  /** The `userProfile` object attached to a generated roadmap. */
  function ProfileObject(p: Profile): (j: Json)
    ensures j.JObj? && j.fields.Keys == {"name", "education", "interests", "skills", "goals"}
    ensures j.fields["name"] == p.name && j.fields["education"] == p.education
    ensures j.fields["interests"] == p.interests && j.fields["skills"] == p.skills
    ensures j.fields["goals"] == p.goals
  {
    JObj(map["name" := p.name, "education" := p.education, "interests" := p.interests,
             "skills" := p.skills, "goals" := p.goals])
  }

  /** The roadmap prompt with each field rendered by `str()`. */
  function ProfilePrompt(repr: Json -> string, p: Profile): (r: string)
    ensures Contains(r, PyStr(repr, p.name)) && Contains(r, PyStr(repr, p.education))
    ensures Contains(r, PyStr(repr, p.interests)) && Contains(r, PyStr(repr, p.skills))
    ensures Contains(r, PyStr(repr, p.goals))
  {
    RoadmapPrompt(PyStr(repr, p.name), PyStr(repr, p.education), PyStr(repr, p.interests),
                  PyStr(repr, p.skills), PyStr(repr, p.goals))
  }

  /**
   * `roadmap_data[key] = value` for each stamp in turn. Only a dictionary
   * accepts them; the stamped keys take the stamped values, whatever the
   * model put there, and every other key keeps the model's value.
   */
  function Stamp(roadmap: Json, stamps: map<string, Json>): (r: Result<map<string, Json>, string>)
    ensures r.Ok? <==> roadmap.JObj?
    ensures !roadmap.JObj? ==> r == Err(ItemAssignmentMessage(roadmap))
    ensures r.Ok? ==> r.value.Keys == roadmap.fields.Keys + stamps.Keys
    ensures r.Ok? ==> Stamped(r.value, stamps)
    ensures r.Ok? ==> forall k :: k in roadmap.fields && k !in stamps ==> r.value[k] == roadmap.fields[k]
  {
    match roadmap
    case JObj(fields) => Ok(fields + stamps)
    case _ => Err(ItemAssignmentMessage(roadmap))
  }

  /** Every stamp is in place in `m`. */
  ghost predicate Stamped(m: map<string, Json>, stamps: map<string, Json>) {
    forall k :: k in stamps ==> k in m && m[k] == stamps[k]
  }

  /** What a generated roadmap receives: its date and the requesting profile. */
  function GeneratedStamps(now: string, p: Profile): (m: map<string, Json>)
    ensures m.Keys == {"generatedDate", "userProfile"}
    ensures m["generatedDate"] == JStr(now) && m["userProfile"] == ProfileObject(p)
  {
    map["generatedDate" := JStr(now), "userProfile" := ProfileObject(p)]
  }

  /**
   * How both `try` blocks end: ask the model, clean up its reply, decode it
   * and stamp the decoded dictionary.
   */
  function AskForRoadmap(svc: Services, prompt: string, stamps: map<string, Json>): (r: Result<map<string, Json>, Raised>)
    ensures r.Ok? ==> Stamped(r.value, stamps)
  {
    var reply :- Lift(svc.complete(prompt));
    var roadmap :- svc.loads(Sanitize(reply));
    Lift(Stamp(roadmap, stamps))
  }

  /** A reply that decodes to a dictionary comes back with the stamps applied. */
  lemma AskForRoadmapOk(svc: Services, prompt: string, stamps: map<string, Json>, reply: string, fields: map<string, Json>)
    requires svc.complete(prompt) == Ok(reply)
    requires svc.loads(Sanitize(reply)) == Ok(JObj(fields))
    ensures AskForRoadmap(svc, prompt, stamps) == Ok(fields + stamps)
  {
  }

  /** The `try` block of `generate_roadmap`. */
  function GenerateTry(body: Result<Json, string>, svc: Services): (r: Result<map<string, Json>, Raised>)
    ensures r.Ok? ==> body.Ok? && body.value.JObj? && ReadProfile(body.value).Ok? &&
                      Stamped(r.value, GeneratedStamps(svc.now, ReadProfile(body.value).value))
    ensures r.Err? && r.error.JsonDecodeError? ==> body.Ok? && body.value.JObj?
  {
    var data :- Lift(body);
    var p :- Lift(ReadProfile(data));
    AskForRoadmap(svc, ProfilePrompt(svc.repr, p), GeneratedStamps(svc.now, p))
  }

  /**
   * `generate_roadmap`: a reply that does not decode gets a fixed retry
   * message, any other failure its exception's own message. A roadmap always
   * carries the request's date and profile.
   */
  function GenerateRoadmap(body: Result<Json, string>, svc: Services): (r: Result<map<string, Json>, string>)
    ensures r.Ok? ==> body.Ok? && body.value.JObj? && ReadProfile(body.value).Ok? &&
                      Stamped(r.value, GeneratedStamps(svc.now, ReadProfile(body.value).value))
  {
    match GenerateTry(body, svc)
    case Ok(m) => Ok(m)
    case Err(JsonDecodeError(_)) => Err(ParseFailureMessage)
    case Err(OtherException(m)) => Err(m)
  }

  // ------------------------------------------------------------- transition

  /** The fields of a transition request, as found in the body. */
  datatype Situation = Situation(currentCareer: Json, newInterests: Json, currentSkills: Json, userProfile: Json)

  /** `data.get(...)` for each field; the profile defaults to an empty dictionary. */
  function ReadSituation(data: Json): (r: Result<Situation, string>)
    ensures r.Ok? <==> data.JObj?
    ensures !data.JObj? ==> r == Err(NoGetMessage(data))
    ensures r.Ok? ==>
      ReadAs(data.fields, "currentCareer", JStr(""), r.value.currentCareer) &&
      ReadAs(data.fields, "newInterests", JStr(""), r.value.newInterests) &&
      ReadAs(data.fields, "currentSkills", JStr(""), r.value.currentSkills) &&
      ReadAs(data.fields, "userProfile", JObj(map[]), r.value.userProfile)
  {
    match data
    case JObj(f) =>
      Ok(Situation(Lookup(f, "currentCareer", JStr("")), Lookup(f, "newInterests", JStr("")),
                   Lookup(f, "currentSkills", JStr("")), Lookup(f, "userProfile", JObj(map[]))))
    case _ => Err(NoGetMessage(data))
  }

  /**
   * The transition prompt. Building it reads education and name from the
   * stored profile, which fails when that profile is not a dictionary.
   */
  function SituationPrompt(repr: Json -> string, s: Situation): (r: Result<string, string>)
    ensures r.Ok? <==> s.userProfile.JObj?
    ensures !s.userProfile.JObj? ==> r == Err(NoGetMessage(s.userProfile))
    ensures r.Ok? ==> Contains(r.value, PyStr(repr, s.currentCareer)) &&
                      Contains(r.value, PyStr(repr, s.currentSkills)) &&
                      Contains(r.value, PyStr(repr, s.newInterests)) &&
                      Contains(r.value, PyStr(repr, Lookup(s.userProfile.fields, "education", JStr("")))) &&
                      Contains(r.value, PyStr(repr, Lookup(s.userProfile.fields, "name", JStr(""))))
  {
    match s.userProfile
    case JObj(f) =>
      Ok(TransitionPrompt(PyStr(repr, s.currentCareer), PyStr(repr, s.currentSkills), PyStr(repr, s.newInterests),
                          PyStr(repr, Lookup(f, "education", JStr(""))), PyStr(repr, Lookup(f, "name", JStr("")))))
    case _ => Err(NoGetMessage(s.userProfile))
  }

  /** What a transition roadmap receives: its date, the flag, and where it started. */
  function TransitionStamps(now: string, s: Situation): (m: map<string, Json>)
    ensures m.Keys == {"generatedDate", "isTransition", "fromCareer"}
    ensures m["generatedDate"] == JStr(now) && m["isTransition"] == JBool(true)
    ensures m["fromCareer"] == s.currentCareer
  {
    map["generatedDate" := JStr(now), "isTransition" := JBool(true), "fromCareer" := s.currentCareer]
  }

  /** The `try` block of `regenerate_roadmap`. */
  function RegenerateTry(body: Result<Json, string>, svc: Services): (r: Result<map<string, Json>, Raised>)
    ensures r.Ok? ==> body.Ok? && body.value.JObj? && ReadSituation(body.value).Ok? &&
                      Stamped(r.value, TransitionStamps(svc.now, ReadSituation(body.value).value))
  {
    var data :- Lift(body);
    var s :- Lift(ReadSituation(data));
    var prompt :- Lift(SituationPrompt(svc.repr, s));
    AskForRoadmap(svc, prompt, TransitionStamps(svc.now, s))
  }

  /**
   * `regenerate_roadmap`: every failure, a reply that does not decode
   * included, is answered with its exception's own message. A roadmap always
   * carries its date, the transition flag and the career it started from.
   */
  function RegenerateRoadmap(body: Result<Json, string>, svc: Services): (r: Result<map<string, Json>, string>)
    ensures r.Ok? ==> body.Ok? && body.value.JObj? && ReadSituation(body.value).Ok? &&
                      Stamped(r.value, TransitionStamps(svc.now, ReadSituation(body.value).value))
  {
    match RegenerateTry(body, svc)
    case Ok(m) => Ok(m)
    case Err(e) => Err(e.msg)
  }

  // ------------------------------------------------------------------- chat

  /**
   * The chat prompt for a request body. Reading the message and the context
   * fails when the body is not a dictionary, and reading the context's
   * fields fails when the context is not one; absent context fields read as
   * `Not specified`.
   */
  function ChatRequestPrompt(repr: Json -> string, data: Json): (r: Result<string, string>)
    ensures r.Ok? <==> data.JObj? && Lookup(data.fields, "context", JObj(map[])).JObj?
    ensures !data.JObj? ==> r == Err(NoGetMessage(data))
    ensures data.JObj? && !Lookup(data.fields, "context", JObj(map[])).JObj? ==>
      r == Err(NoGetMessage(Lookup(data.fields, "context", JObj(map[]))))
    ensures r.Ok? ==> Contains(r.value, PyStr(repr, Lookup(data.fields, "message", JStr(""))))
    ensures r.Ok? ==>
      var context := Lookup(data.fields, "context", JObj(map[]));
      Contains(r.value, PyStr(repr, Lookup(context.fields, "careerPath", JStr("Not specified")))) &&
      Contains(r.value, PyStr(repr, Lookup(context.fields, "currentPhase", JStr("Not specified"))))
  {
    match data
    case JObj(f) =>
      var context := Lookup(f, "context", JObj(map[]));
      (match context
       case JObj(c) =>
         Ok(ChatPrompt(PyStr(repr, Lookup(c, "careerPath", JStr("Not specified"))),
                       PyStr(repr, Lookup(c, "currentPhase", JStr("Not specified"))),
                       PyStr(repr, Lookup(f, "message", JStr("")))))
       case _ => Err(NoGetMessage(context)))
    case _ => Err(NoGetMessage(data))
  }

  /** The `try` block of `chat`. */
  function ChatTry(body: Result<Json, string>, svc: Services): (r: Result<string, Raised>)
    ensures r.Ok? <==> body.Ok? && ChatRequestPrompt(svc.repr, body.value).Ok? &&
                       svc.complete(ChatRequestPrompt(svc.repr, body.value).value).Ok?
    ensures r.Ok? ==> Trimmed(r.value)
  {
    var data :- Lift(body);
    var prompt :- Lift(ChatRequestPrompt(svc.repr, data));
    var reply :- Lift(svc.complete(prompt));
    Ok(Strip(reply))
  }

  /**
   * `chat`: it answers exactly when the body is readable, the prompt can be
   * built and the model call succeeds; whatever goes wrong, the caller sees
   * one fixed message; an answer has no outer whitespace.
   */
  function Chat(body: Result<Json, string>, svc: Services): (r: Result<string, string>)
    ensures r.Ok? <==> body.Ok? && ChatRequestPrompt(svc.repr, body.value).Ok? &&
                       svc.complete(ChatRequestPrompt(svc.repr, body.value).value).Ok?
    ensures r.Err? ==> r.error == ChatFailureMessage
    ensures r.Ok? ==> Trimmed(r.value)
  {
    match ChatTry(body, svc)
    case Ok(answer) => Ok(answer)
    case Err(_) => Err(ChatFailureMessage)
  }

  // ------------------------------------------------------------------ reply

  /** A `jsonify` body with its HTTP status. */
  datatype Reply = Reply(status: nat, body: map<string, Json>)

  /** The one reply `chat` gives on any failure. */
  const ChatFailed: Reply := Reply(500, map["success" := JBool(false), "error" := JStr(ChatFailureMessage)])

  /**
   * The reply of an endpoint whose payload sits under `key`: status 200 with
   * `success` true and the payload, or status 500 with `success` false and
   * the message under `error`.
   */
  function Respond(r: Result<Json, string>, key: string): (reply: Reply)
    requires key != "success" && key != "error"
    ensures reply.status == 200 || reply.status == 500
    ensures reply.status == 200 <==> r.Ok?
    ensures "success" in reply.body && reply.body["success"] == JBool(r.Ok?)
    ensures key in reply.body <==> r.Ok?
    ensures "error" in reply.body <==> r.Err?
    ensures r.Ok? ==> reply.body[key] == r.value
    ensures r.Err? ==> reply.body["error"] == JStr(r.error)
    ensures |reply.body| == 2
  {
    match r
    case Ok(v) => Reply(200, map["success" := JBool(true), key := v])
    case Err(m) => Reply(500, map["success" := JBool(false), "error" := JStr(m)])
  }

  /**
   * A roadmap endpoint's reply: status 200 with the dictionary under
   * `roadmap`, or status 500 with the message under `error` and no roadmap.
   */
  function RoadmapReply(r: Result<map<string, Json>, string>): (out: Reply)
    ensures out.status == 200 <==> r.Ok?
    ensures out.status == 200 || out.status == 500
    ensures "success" in out.body && out.body["success"] == JBool(r.Ok?)
    ensures r.Ok? ==> "roadmap" in out.body && out.body["roadmap"] == JObj(r.value)
    ensures r.Err? ==> "roadmap" !in out.body && "error" in out.body && out.body["error"] == JStr(r.error)
  {
    match r
    case Ok(m) => Respond(Ok(JObj(m)), "roadmap")
    case Err(e) => Respond(Err(e), "roadmap")
  }

  /**
   * `POST /api/generate-roadmap`: status 200 with a roadmap that carries the
   * request's date and profile, or status 500 with the failure's message
   * and no roadmap.
   */
  function GenerateRoadmapReply(body: Result<Json, string>, svc: Services): (out: Reply)
    ensures out.status == 200 || out.status == 500
    ensures out.status == 200 <==> GenerateRoadmap(body, svc).Ok?
    ensures "success" in out.body && out.body["success"] == JBool(out.status == 200)
    ensures out.status == 200 ==>
      body.Ok? && ReadProfile(body.value).Ok? &&
      "roadmap" in out.body && out.body["roadmap"].JObj? &&
      Stamped(out.body["roadmap"].fields, GeneratedStamps(svc.now, ReadProfile(body.value).value))
    ensures out.status == 500 ==>
      var r := GenerateRoadmap(body, svc);
      r.Err? && "roadmap" !in out.body && "error" in out.body && out.body["error"] == JStr(r.error)
  {
    RoadmapReply(GenerateRoadmap(body, svc))
  }

  /**
   * `POST /api/regenerate-roadmap`: status 200 with a roadmap that carries
   * its date, the transition flag and the starting career, or status 500
   * with the failure's message and no roadmap.
   */
  function RegenerateRoadmapReply(body: Result<Json, string>, svc: Services): (out: Reply)
    ensures out.status == 200 || out.status == 500
    ensures out.status == 200 <==> RegenerateRoadmap(body, svc).Ok?
    ensures "success" in out.body && out.body["success"] == JBool(out.status == 200)
    ensures out.status == 200 ==>
      body.Ok? && ReadSituation(body.value).Ok? &&
      "roadmap" in out.body && out.body["roadmap"].JObj? &&
      Stamped(out.body["roadmap"].fields, TransitionStamps(svc.now, ReadSituation(body.value).value))
    ensures out.status == 500 ==>
      var r := RegenerateRoadmap(body, svc);
      r.Err? && "roadmap" !in out.body && "error" in out.body && out.body["error"] == JStr(r.error)
  {
    RoadmapReply(RegenerateRoadmap(body, svc))
  }

  function AsText(r: Result<string, string>): Result<Json, string> {
    match r
    case Ok(s) => Ok(JStr(s))
    case Err(e) => Err(e)
  }

  /**
   * `POST /api/chat`: status 200 with the stripped answer under `response`,
   * or status 500 with the fixed message and nothing else.
   */
  function ChatReply(body: Result<Json, string>, svc: Services): (out: Reply)
    ensures out.status == 200 || out.status == 500
    ensures out.status == 200 <==> Chat(body, svc).Ok?
    ensures out.status == 200 ==>
      out.body.Keys == {"success", "response"} && out.body["success"] == JBool(true) &&
      out.body["response"].JStr? && Trimmed(out.body["response"].s)
    ensures out.status == 500 ==> out == ChatFailed
  {
    Respond(AsText(Chat(body, svc)), "response")
  }

  // ----------------------------------------------------------------- lemmas

  /** The model's dictionary once the generated-roadmap stamps are applied. */
  lemma GeneratedMerge(fields: map<string, Json>, now: string, p: Profile)
    ensures var m := fields + GeneratedStamps(now, p);
            m.Keys == fields.Keys + {"generatedDate", "userProfile"} &&
            m["generatedDate"] == JStr(now) &&
            m["userProfile"] == ProfileObject(p) &&
            forall k :: k in fields && k != "generatedDate" && k != "userProfile" ==> m[k] == fields[k]
  {
  }

  /** The model's dictionary once the transition stamps are applied. */
  lemma TransitionMerge(fields: map<string, Json>, now: string, s: Situation)
    ensures var m := fields + TransitionStamps(now, s);
            m.Keys == fields.Keys + {"generatedDate", "isTransition", "fromCareer"} &&
            m["generatedDate"] == JStr(now) &&
            m["isTransition"] == JBool(true) &&
            m["fromCareer"] == s.currentCareer &&
            forall k :: k in fields && k != "generatedDate" && k != "isTransition" && k != "fromCareer" ==>
              m[k] == fields[k]
  {
  }

  /**
   * Each way `generate_roadmap` can fail, in the order the steps run, and
   * the message the caller then sees.
   */
  lemma GenerateRoadmapFailures(body: Result<Json, string>, svc: Services)
    ensures body.Err? ==> GenerateRoadmap(body, svc) == Err(body.error)
    ensures body.Ok? && !body.value.JObj? ==> GenerateRoadmap(body, svc) == Err(NoGetMessage(body.value))
    ensures body.Ok? && body.value.JObj? ==>
      var reply := svc.complete(ProfilePrompt(svc.repr, ReadProfile(body.value).value));
      (reply.Err? ==> GenerateRoadmap(body, svc) == Err(reply.error)) &&
      (reply.Ok? && svc.loads(Sanitize(reply.value)).Err? && svc.loads(Sanitize(reply.value)).error.JsonDecodeError? ==>
         GenerateRoadmap(body, svc) == Err(ParseFailureMessage)) &&
      (reply.Ok? && svc.loads(Sanitize(reply.value)).Err? && svc.loads(Sanitize(reply.value)).error.OtherException? ==>
         GenerateRoadmap(body, svc) == Err(svc.loads(Sanitize(reply.value)).error.msg)) &&
      (reply.Ok? && svc.loads(Sanitize(reply.value)).Ok? && !svc.loads(Sanitize(reply.value)).value.JObj? ==>
         GenerateRoadmap(body, svc) == Err(ItemAssignmentMessage(svc.loads(Sanitize(reply.value)).value)))
  {
  }

  /** A reply that decodes to a dictionary yields that dictionary, stamped. */
  lemma GenerateRoadmapOk(body: Result<Json, string>, svc: Services, reply: string, fields: map<string, Json>)
    requires body.Ok? && body.value.JObj?
    requires svc.complete(ProfilePrompt(svc.repr, ReadProfile(body.value).value)) == Ok(reply)
    requires svc.loads(Sanitize(reply)) == Ok(JObj(fields))
    ensures GenerateRoadmap(body, svc) == Ok(fields + GeneratedStamps(svc.now, ReadProfile(body.value).value))
  {
    var p := ReadProfile(body.value).value;
    AskForRoadmapOk(svc, ProfilePrompt(svc.repr, p), GeneratedStamps(svc.now, p), reply, fields);
    assert GenerateTry(body, svc) == Ok(fields + GeneratedStamps(svc.now, p));
  }

  /**
   * When the model's cleaned-up reply decodes to a dictionary, the roadmap
   * is that dictionary with the two stamps added or overriding, and nothing
   * else changed.
   */
  lemma GenerateRoadmapSuccess(body: Result<Json, string>, svc: Services, reply: string, fields: map<string, Json>)
    requires body.Ok? && body.value.JObj?
    requires svc.complete(ProfilePrompt(svc.repr, ReadProfile(body.value).value)) == Ok(reply)
    requires svc.loads(Sanitize(reply)) == Ok(JObj(fields))
    ensures var r := GenerateRoadmap(body, svc);
            r.Ok? &&
            r.value.Keys == fields.Keys + {"generatedDate", "userProfile"} &&
            r.value["generatedDate"] == JStr(svc.now) &&
            r.value["userProfile"] == ProfileObject(ReadProfile(body.value).value) &&
            forall k :: k in fields && k != "generatedDate" && k != "userProfile" ==> r.value[k] == fields[k]
  {
    GenerateRoadmapOk(body, svc, reply, fields);
    GeneratedMerge(fields, svc.now, ReadProfile(body.value).value);
  }

  /** A reply that is not valid JSON: status 500, no roadmap, the retry message. */
  lemma GenerateParseFailureReply(body: Result<Json, string>, svc: Services, reply: string)
    requires body.Ok? && body.value.JObj?
    requires svc.complete(ProfilePrompt(svc.repr, ReadProfile(body.value).value)) == Ok(reply)
    requires svc.loads(Sanitize(reply)).Err? && svc.loads(Sanitize(reply)).error.JsonDecodeError?
    ensures var out := GenerateRoadmapReply(body, svc);
            out.status == 500 && "roadmap" !in out.body && out.body["success"] == JBool(false) &&
            out.body["error"] == JStr(ParseFailureMessage) && out.body["error"] != JStr("")
  {
    GenerateRoadmapFailures(body, svc);
  }

  /** A body that is not a dictionary fails on the first field read. */
  lemma GenerateNonObjectBody(body: Result<Json, string>, svc: Services)
    requires body.Ok? && !body.value.JObj?
    ensures GenerateRoadmap(body, svc) == Err(NoGetMessage(body.value))
  {
    assert GenerateTry(body, svc) == Err(OtherException(NoGetMessage(body.value)));
  }

  /** A `null` body: `'NoneType' object has no attribute 'get'`. */
  lemma GenerateNullBody(svc: Services)
    ensures GenerateRoadmap(Ok(JNull), svc) == Err(Quoted("NoneType") + NoGetTail)
  {
    GenerateNonObjectBody(Ok(JNull), svc);
    NoneHasNoGet();
  }

  /**
   * A request with only a name and skills, answered with a fenced `json`
   * block: the roadmap is the decoded object, dated, with the full profile,
   * the three absent fields as empty strings.
   */
  lemma GenerateExample(loads: string -> Result<Json, Raised>, now: string, repr: Json -> string)
    requires loads("{\"a\":1}") == Ok(JObj(map["a" := JNum(1)]))
    ensures var svc := Services(_ => Ok("```json\n{\"a\":1}\n```"), loads, now, repr);
            var body := Ok(JObj(map["name" := JStr("Ana"), "skills" := JStr("Python")]));
            GenerateRoadmap(body, svc) ==
              Ok(map["a" := JNum(1), "generatedDate" := JStr(now),
                     "userProfile" := JObj(map["name" := JStr("Ana"), "education" := JStr(""),
                                               "interests" := JStr(""), "skills" := JStr("Python"),
                                               "goals" := JStr("")])])
  {
    var reply := "```json\n{\"a\":1}\n```";
    var svc := Services(_ => Ok(reply), loads, now, repr);
    var data := JObj(map["name" := JStr("Ana"), "skills" := JStr("Python")]);
    var p := Profile(JStr("Ana"), JStr(""), JStr(""), JStr("Python"), JStr(""));
    assert ReadProfile(data) == Ok(p);
    SanitizeTaggedExample();
    GenerateRoadmapOk(Ok(data), svc, reply, map["a" := JNum(1)]);
    ExampleMerge(now, ProfileObject(p));
  }

  lemma ExampleMerge(now: string, profile: Json)
    ensures map["a" := JNum(1)] + map["generatedDate" := JStr(now), "userProfile" := profile]
         == map["a" := JNum(1), "generatedDate" := JStr(now), "userProfile" := profile]
  {
  }

  /**
   * Each way `regenerate_roadmap` can fail, in the order the steps run: the
   * caller always sees the exception's own message, for a reply that does
   * not decode too.
   */
  lemma RegenerateRoadmapFailures(body: Result<Json, string>, svc: Services)
    ensures body.Err? ==> RegenerateRoadmap(body, svc) == Err(body.error)
    ensures body.Ok? && !body.value.JObj? ==> RegenerateRoadmap(body, svc) == Err(NoGetMessage(body.value))
    ensures body.Ok? && body.value.JObj? ==>
      var s := ReadSituation(body.value).value;
      (!s.userProfile.JObj? ==> RegenerateRoadmap(body, svc) == Err(NoGetMessage(s.userProfile))) &&
      (s.userProfile.JObj? ==>
        var reply := svc.complete(SituationPrompt(svc.repr, s).value);
        (reply.Err? ==> RegenerateRoadmap(body, svc) == Err(reply.error)) &&
        (reply.Ok? && svc.loads(Sanitize(reply.value)).Err? ==>
           RegenerateRoadmap(body, svc) == Err(svc.loads(Sanitize(reply.value)).error.msg)) &&
        (reply.Ok? && svc.loads(Sanitize(reply.value)).Ok? && !svc.loads(Sanitize(reply.value)).value.JObj? ==>
           RegenerateRoadmap(body, svc) == Err(ItemAssignmentMessage(svc.loads(Sanitize(reply.value)).value))))
  {
  }

  /**
   * When the cleaned-up reply decodes to a dictionary, the roadmap is that
   * dictionary with the three stamps added or overriding, nothing else changed.
   */
  lemma RegenerateRoadmapSuccess(body: Result<Json, string>, svc: Services, reply: string, fields: map<string, Json>)
    requires body.Ok? && body.value.JObj? && ReadSituation(body.value).value.userProfile.JObj?
    requires svc.complete(SituationPrompt(svc.repr, ReadSituation(body.value).value).value) == Ok(reply)
    requires svc.loads(Sanitize(reply)) == Ok(JObj(fields))
    ensures var r := RegenerateRoadmap(body, svc);
            r.Ok? &&
            r.value.Keys == fields.Keys + {"generatedDate", "isTransition", "fromCareer"} &&
            r.value["generatedDate"] == JStr(svc.now) &&
            r.value["isTransition"] == JBool(true) &&
            r.value["fromCareer"] == ReadSituation(body.value).value.currentCareer &&
            forall k :: k in fields && k != "generatedDate" && k != "isTransition" && k != "fromCareer" ==>
              r.value[k] == fields[k]
  {
    RegenerateRoadmapOk(body, svc, reply, fields);
    TransitionMerge(fields, svc.now, ReadSituation(body.value).value);
  }

  /** A reply that decodes to a dictionary yields it with the transition stamps applied. */
  lemma RegenerateRoadmapOk(body: Result<Json, string>, svc: Services, reply: string, fields: map<string, Json>)
    requires body.Ok? && body.value.JObj? && ReadSituation(body.value).value.userProfile.JObj?
    requires svc.complete(SituationPrompt(svc.repr, ReadSituation(body.value).value).value) == Ok(reply)
    requires svc.loads(Sanitize(reply)) == Ok(JObj(fields))
    ensures RegenerateRoadmap(body, svc) == Ok(fields + TransitionStamps(svc.now, ReadSituation(body.value).value))
  {
    RegenerateTryOk(body, svc, reply, fields);
  }

  /** The `try` block of `regenerate_roadmap` on a reply that decodes to a dictionary. */
  lemma RegenerateTryOk(body: Result<Json, string>, svc: Services, reply: string, fields: map<string, Json>)
    requires body.Ok? && body.value.JObj? && ReadSituation(body.value).value.userProfile.JObj?
    requires svc.complete(SituationPrompt(svc.repr, ReadSituation(body.value).value).value) == Ok(reply)
    requires svc.loads(Sanitize(reply)) == Ok(JObj(fields))
    ensures RegenerateTry(body, svc) == Ok(fields + TransitionStamps(svc.now, ReadSituation(body.value).value))
  {
    var s := ReadSituation(body.value).value;
    AskForRoadmapOk(svc, SituationPrompt(svc.repr, s).value, TransitionStamps(svc.now, s), reply, fields);
  }

  /** Without a context, both context lines of the chat prompt read `Not specified`. */
  lemma ChatContextDefaults(repr: Json -> string, data: Json)
    requires data.JObj? && "context" !in data.fields
    ensures ChatRequestPrompt(repr, data) ==
            Ok(ChatPrompt("Not specified", "Not specified", PyStr(repr, Lookup(data.fields, "message", JStr("")))))
  {
  }

  /**
   * Each way `chat` can fail, in the order the steps run: an unreadable
   * body, a body or context that is not a dictionary, a failed model call.
   * Every one ends in status 500 with the fixed message.
   */
  lemma ChatFailures(body: Result<Json, string>, svc: Services)
    ensures body.Err? ==> ChatReply(body, svc) == ChatFailed
    ensures body.Ok? && !body.value.JObj? ==> ChatReply(body, svc) == ChatFailed
    ensures body.Ok? && body.value.JObj? && !Lookup(body.value.fields, "context", JObj(map[])).JObj? ==>
      ChatReply(body, svc) == ChatFailed
    ensures body.Ok? && ChatRequestPrompt(svc.repr, body.value).Ok? &&
            svc.complete(ChatRequestPrompt(svc.repr, body.value).value).Err? ==>
      ChatReply(body, svc) == ChatFailed
  {
    if Chat(body, svc).Err? {
      ChatFailureReply(body, svc);
    }
  }

  /** A model answer reaches the caller stripped, under `response`, with status 200. */
  lemma ChatSuccess(body: Result<Json, string>, svc: Services, answer: string)
    requires body.Ok? && ChatRequestPrompt(svc.repr, body.value).Ok?
    requires svc.complete(ChatRequestPrompt(svc.repr, body.value).value) == Ok(answer)
    ensures ChatReply(body, svc) == Reply(200, map["success" := JBool(true), "response" := JStr(Strip(answer))])
  {
  }

  /** Any failure in chat, the model's included, gives status 500 and the fixed message only. */
  lemma ChatFailureReply(body: Result<Json, string>, svc: Services)
    requires Chat(body, svc).Err?
    ensures ChatReply(body, svc) == ChatFailed
  {
  }

  // ------------------------------------------------------ reads as `.get`

  /** Reading the profile is `data.get(field, '')` per field; the first `.get` raises on a non-dictionary. */
  lemma ReadProfileGets(data: Json)
    ensures data.JObj? ==>
      Get(data, "name", JStr("")) == Ok(ReadProfile(data).value.name) &&
      Get(data, "education", JStr("")) == Ok(ReadProfile(data).value.education) &&
      Get(data, "interests", JStr("")) == Ok(ReadProfile(data).value.interests) &&
      Get(data, "skills", JStr("")) == Ok(ReadProfile(data).value.skills) &&
      Get(data, "goals", JStr("")) == Ok(ReadProfile(data).value.goals)
    ensures !data.JObj? ==> ReadProfile(data) == Err(Get(data, "name", JStr("")).error)
  {
  }

  /** Reading the situation is `data.get(...)` per field; the first `.get` raises on a non-dictionary. */
  lemma ReadSituationGets(data: Json)
    ensures data.JObj? ==>
      Get(data, "currentCareer", JStr("")) == Ok(ReadSituation(data).value.currentCareer) &&
      Get(data, "newInterests", JStr("")) == Ok(ReadSituation(data).value.newInterests) &&
      Get(data, "currentSkills", JStr("")) == Ok(ReadSituation(data).value.currentSkills) &&
      Get(data, "userProfile", JObj(map[])) == Ok(ReadSituation(data).value.userProfile)
    ensures !data.JObj? ==> ReadSituation(data) == Err(Get(data, "currentCareer", JStr("")).error)
  {
  }

  /** The transition prompt fails with the error of `user_profile.get('education', '')`. */
  lemma SituationPromptGets(repr: Json -> string, s: Situation)
    ensures !s.userProfile.JObj? ==>
      SituationPrompt(repr, s) == Err(Get(s.userProfile, "education", JStr("")).error)
    ensures s.userProfile.JObj? ==>
      Get(s.userProfile, "education", JStr("")).Ok? && Get(s.userProfile, "name", JStr("")).Ok?
  {
  }

  /**
   * The chat prompt reads `data.get('message', '')` and `data.get('context', {})`,
   * then `context.get(...)`; it fails with the error of the first `.get` that raises.
   */
  lemma ChatRequestPromptGets(repr: Json -> string, data: Json)
    ensures !data.JObj? ==> ChatRequestPrompt(repr, data) == Err(Get(data, "message", JStr("")).error)
    ensures data.JObj? ==>
      Get(data, "message", JStr("")) == Ok(Lookup(data.fields, "message", JStr(""))) &&
      Get(data, "context", JObj(map[])) == Ok(Lookup(data.fields, "context", JObj(map[])))
    ensures data.JObj? && !Lookup(data.fields, "context", JObj(map[])).JObj? ==>
      var context := Lookup(data.fields, "context", JObj(map[]));
      ChatRequestPrompt(repr, data) == Err(Get(context, "careerPath", JStr("Not specified")).error)
  {
  }
}
