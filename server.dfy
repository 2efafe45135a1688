/**
 * The driver registry of a Babelfish server: a map from language name to a
 * running driver pool, filled explicitly (AddDriver) or lazily on a lookup
 * miss (Driver), used to dispatch parse requests (ParseUAST) and closed as a
 * whole on shutdown (Close).
 *
 * Each state-changing method of `Server` is proved against a step function
 * on plain maps (AddDriverStep, DriverStep, ParseStep); what the server
 * promises is stated on those functions and in the lemmas at the end.
 */
module Babelfish {
  import opened Wrappers
  import Protocol

  // ---------------------------------------------------------------------
  // Errors
  // ---------------------------------------------------------------------

  /** An error produced by code outside the server (image parser, installer, pool, driver). */
  datatype Cause = Cause(text: string)

  /** The server's error kinds, plus a foreign error passed through unwrapped. */
  datatype Error =
    | MissingDriver(lang: string, inner: Error)   // ErrMissingDriver wrapping the provisioning error
    | Runtime(cause: Cause)                       // ErrRuntime wrapping an image or installation error
    | AlreadyInstalled(lang: string, img: string) // ErrAlreadyInstalled with its two arguments
    | Foreign(cause: Cause)                       // StartDriverPool's error, returned as is

  /** The text of an error; a wrapping error is followed by ": " and the text of what it wraps. */
  function Message(e: Error): string
  {
    match e
    case MissingDriver(lang, inner) => "missing driver for language " + lang + ": " + Message(inner)
    case Runtime(cause) => "runtime failure: " + cause.text
    case AlreadyInstalled(lang, img) => "driver already installed: " + lang + " (image reference: " + img + ")"
    case Foreign(cause) => cause.text
  }

  // ---------------------------------------------------------------------
  // Collaborators
  // ---------------------------------------------------------------------

  /** A parsed driver image reference. */
  datatype Image = Image(reference: string)

  /** The handle of a started driver pool. */
  datatype DriverPool = DriverPool(id: nat)

  /**
   * The calls the server makes into code that is not modelled, each an
   * arbitrary function: image-reference parsing, the default image of a
   * language for a transport, language detection from file name and
   * content, and a driver's own ParseUAST and Close.
   */
  datatype Collaborators = Collaborators(
    newDriverImage: string -> Result<Image, Cause>,
    defaultDriverImageReference: (string, string) -> string,
    getLanguage: (string, string) -> string,
    parse: (DriverPool, Protocol.ParseUASTRequest) -> Protocol.ParseUASTResponse,
    close: DriverPool -> Option<Cause>)

  /**
   * How the runtime answers the two provisioning calls of one AddDriver:
   * installing the image (with its force-reinstall flag) and starting a pool
   * backed by it. A fresh value per call makes each call's success or failure
   * independent of every other call.
   */
  datatype Provisioning = Provisioning(
    install: (Image, bool) -> Option<Cause>,
    start: Image -> Result<DriverPool, Cause>)

  // ---------------------------------------------------------------------
  // Step functions: the registry's operations on plain maps
  // ---------------------------------------------------------------------

  /** The registry after an operation and that operation's error, if any. */
  datatype AddStep = AddStep(drivers: map<string, DriverPool>, err: Option<Error>)

  /** The registry after a lookup and the driver (or error) it produced. */
  datatype LookupStep = LookupStep(drivers: map<string, DriverPool>, result: Result<DriverPool, Error>)

  /** The registry after a dispatch and the response sent back. */
  datatype DispatchStep = DispatchStep(drivers: map<string, DriverPool>, response: Protocol.ParseUASTResponse)

  /** Explicit provisioning of `lang` from image reference `img`. */
  function AddDriverStep(drivers: map<string, DriverPool>, lang: string, img: string,
                         newDriverImage: string -> Result<Image, Cause>, p: Provisioning): (r: AddStep)
    // a language already served is refused with both arguments, and nothing changes
    ensures lang in drivers ==> r == AddStep(drivers, Some(AlreadyInstalled(lang, img)))
    // a bad image reference or a failed installation is a Runtime error, and nothing changes
    ensures lang !in drivers && newDriverImage(img).Failure? ==>
              r == AddStep(drivers, Some(Runtime(newDriverImage(img).error)))
    ensures lang !in drivers && newDriverImage(img).Success? && p.install(newDriverImage(img).value, false).Some? ==>
              r == AddStep(drivers, Some(Runtime(p.install(newDriverImage(img).value, false).value)))
    // a pool that fails to start gives its own error back unwrapped, and nothing changes
    ensures lang !in drivers && newDriverImage(img).Success? && p.install(newDriverImage(img).value, false).None?
            && p.start(newDriverImage(img).value).Failure? ==>
              r == AddStep(drivers, Some(Foreign(p.start(newDriverImage(img).value).error)))
    // when the image parses, installs and starts, lang maps to the started pool and no error is returned
    ensures lang !in drivers && newDriverImage(img).Success? && p.install(newDriverImage(img).value, false).None?
            && p.start(newDriverImage(img).value).Success? ==>
              r == AddStep(drivers[lang := p.start(newDriverImage(img).value).value], None)
    // success exactly when lang was absent and all three calls succeed, and exactly when lang is newly present
    ensures r.err.None? <==> lang !in drivers && newDriverImage(img).Success?
                             && p.install(newDriverImage(img).value, false).None?
                             && p.start(newDriverImage(img).value).Success?
    ensures r.err.None? <==> lang !in drivers && lang in r.drivers
    // on success lang maps to the pool started from the parsed, installed image
    ensures r.err.None? ==> r.drivers == drivers[lang := p.start(newDriverImage(img).value).value]
    // every failure leaves the registry as it was
    ensures r.err.Some? ==> r.drivers == drivers
    // every other language keeps its pool
    ensures forall k :: k in drivers ==> k in r.drivers && r.drivers[k] == drivers[k]
    ensures forall k :: k in r.drivers && k != lang ==> k in drivers
  {
    if lang in drivers then AddStep(drivers, Some(AlreadyInstalled(lang, img)))
    else
      match newDriverImage(img)
      case Failure(c) => AddStep(drivers, Some(Runtime(c)))
      case Success(image) =>
        match p.install(image, false)
        case Some(c) => AddStep(drivers, Some(Runtime(c)))
        case None =>
          match p.start(image)
          case Failure(c) => AddStep(drivers, Some(Foreign(c)))
          case Success(dp) => AddStep(drivers[lang := dp], None)
  }

  /**
   * The registry as the provisioning call inside a lookup sees it: `concurrent`
   * is a pool that another caller registered for `lang` after the lookup's read
   * found nothing and before its AddDriver took the lock (None when no other
   * caller ran in between).
   */
  function Raced(drivers: map<string, DriverPool>, lang: string, concurrent: Option<DriverPool>): map<string, DriverPool>
  {
    if concurrent.Some? then drivers[lang := concurrent.value] else drivers
  }

  /** The provisioning a lookup miss performs: AddDriver with the language's default image. */
  function MissAdd(drivers: map<string, DriverPool>, transport: string, lang: string, c: Collaborators,
                   p: Provisioning, concurrent: Option<DriverPool>): AddStep
  {
    AddDriverStep(Raced(drivers, lang, concurrent), lang, c.defaultDriverImageReference(transport, lang),
                  c.newDriverImage, p)
  }

  /** Lookup of `lang`, provisioning it on a miss. */
  function DriverStep(drivers: map<string, DriverPool>, transport: string, lang: string, c: Collaborators,
                      p: Provisioning, concurrent: Option<DriverPool>): (r: LookupStep)
    // a hit returns the registered pool, provisions nothing and changes nothing
    ensures lang in drivers ==> r == LookupStep(drivers, Success(drivers[lang]))
    // whatever is returned is the pool the registry now holds for lang
    ensures r.result.Success? ==> lang in r.drivers && r.drivers[lang] == r.result.value
    // a miss provisions with the default image; any error but AlreadyInstalled becomes MissingDriver(lang, e)
    ensures lang !in drivers ==>
              var add := MissAdd(drivers, transport, lang, c, p, concurrent);
              r.drivers == add.drivers &&
              (r.result.Failure? <==> add.err.Some? && !add.err.value.AlreadyInstalled?) &&
              (r.result.Failure? ==> r.result.error == MissingDriver(lang, add.err.value))
    // the only error is MissingDriver for lang, never wrapping AlreadyInstalled
    ensures r.result.Failure? ==>
              r.result.error.MissingDriver? && r.result.error.lang == lang && !r.result.error.inner.AlreadyInstalled?
    // no registered pool is ever replaced, and only lang can be added
    ensures forall k :: k in drivers ==> k in r.drivers && r.drivers[k] == drivers[k]
    ensures forall k :: k in r.drivers && k != lang ==> k in drivers
  {
    if lang in drivers then LookupStep(drivers, Success(drivers[lang]))
    else
      var add := MissAdd(drivers, transport, lang, c, p, concurrent);
      if add.err.Some? && !add.err.value.AlreadyInstalled? then
        LookupStep(add.drivers, Failure(MissingDriver(lang, add.err.value)))
      else
        LookupStep(add.drivers, Success(add.drivers[lang]))
  }

  /** The fixed text in front of every driver error a response reports. */
  const DriverErrorPrefix: string := "error getting driver: "

  /** The language a request is served in: its own if given, otherwise the detected one. */
  function RequestLanguage(req: Protocol.ParseUASTRequest, c: Collaborators): string
  {
    if req.language != "" then req.language else c.getLanguage(req.filename, req.content)
  }

  /** Dispatch of one parse request. */
  function ParseStep(drivers: map<string, DriverPool>, transport: string, req: Protocol.ParseUASTRequest,
                     c: Collaborators, p: Provisioning, concurrent: Option<DriverPool>): (r: DispatchStep)
    // an explicit language is used as is; an empty one is replaced by the detected one
    ensures req.language != "" ==> r.drivers == DriverStep(drivers, transport, req.language, c, p, concurrent).drivers
    ensures req.language == "" ==>
              r.drivers == DriverStep(drivers, transport, c.getLanguage(req.filename, req.content), c, p, concurrent).drivers
    ensures var lang := RequestLanguage(req, c);
            var look := DriverStep(drivers, transport, lang, c, p, concurrent);
            // a driver failure is a Fatal response with one message naming the missing language
            (look.result.Failure? ==>
               && r.response.status == Protocol.Fatal
               && r.response.uast == None
               && |r.response.errors| == 1
               && DriverErrorPrefix + "missing driver for language " + lang <= r.response.errors[0]
               && r.response.errors[0] == DriverErrorPrefix + Message(look.result.error)) &&
            // otherwise the driver's own response to the unchanged request comes back untouched
            (look.result.Success? ==> r.response == c.parse(look.result.value, req))
    ensures forall k :: k in drivers ==> k in r.drivers && r.drivers[k] == drivers[k]
  {
    var lang := RequestLanguage(req, c);
    var look := DriverStep(drivers, transport, lang, c, p, concurrent);
    match look.result
    case Failure(e) =>
      DispatchStep(look.drivers,
                   Protocol.ParseUASTResponse(Protocol.Fatal, [DriverErrorPrefix + Message(e)], None))
    case Success(d) => DispatchStep(look.drivers, c.parse(d, req))
  }

  // ---------------------------------------------------------------------
  // Properties relating several calls
  // ---------------------------------------------------------------------

  /** A language is provisioned once: after AddDriver succeeds, any further AddDriver of it is refused and changes nothing. */
  lemma AddDriverOnlyOnce(drivers: map<string, DriverPool>, lang: string, img: string, img': string,
                          newDriverImage: string -> Result<Image, Cause>, p: Provisioning, p': Provisioning)
    requires AddDriverStep(drivers, lang, img, newDriverImage, p).err == None
    ensures var first := AddDriverStep(drivers, lang, img, newDriverImage, p);
            var second := AddDriverStep(first.drivers, lang, img', newDriverImage, p');
            second.err == Some(AlreadyInstalled(lang, img')) &&
            second.drivers == first.drivers &&
            second.drivers[lang] == p.start(newDriverImage(img).value).value
  {
  }

  /**
   * With no other caller in between, a miss can only fail or provision: the
   * AddDriver it makes never reports AlreadyInstalled, so the lookup fails
   * exactly when that AddDriver fails, wrapping its error.
   */
  lemma SequentialMissNeverAlreadyInstalled(drivers: map<string, DriverPool>, transport: string, lang: string,
                                            c: Collaborators, p: Provisioning)
    requires lang !in drivers
    ensures var add := AddDriverStep(drivers, lang, c.defaultDriverImageReference(transport, lang),
                                     c.newDriverImage, p);
            var look := DriverStep(drivers, transport, lang, c, p, None);
            (add.err.Some? ==> !add.err.value.AlreadyInstalled? &&
                               look == LookupStep(drivers, Failure(MissingDriver(lang, add.err.value)))) &&
            (add.err.None? ==> look == LookupStep(add.drivers, Success(add.drivers[lang])))
  {
  }

  /**
   * When another caller registers `lang` first, the miss's AddDriver is
   * refused as AlreadyInstalled, which the lookup absorbs: it returns the
   * other caller's pool and no second pool exists.
   */
  lemma RacedMissReturnsWinner(drivers: map<string, DriverPool>, transport: string, lang: string,
                               c: Collaborators, p: Provisioning, winner: DriverPool)
    requires lang !in drivers
    ensures MissAdd(drivers, transport, lang, c, p, Some(winner)).err.Some?
    ensures MissAdd(drivers, transport, lang, c, p, Some(winner)).err.value.AlreadyInstalled?
    ensures DriverStep(drivers, transport, lang, c, p, Some(winner)) ==
            LookupStep(drivers[lang := winner], Success(winner))
  {
  }

  /** Once a lookup has produced a pool, every later lookup of that language returns it and changes nothing. */
  lemma LookupThenHit(drivers: map<string, DriverPool>, transport: string, lang: string, c: Collaborators,
                      p: Provisioning, concurrent: Option<DriverPool>, p': Provisioning, concurrent': Option<DriverPool>)
    requires DriverStep(drivers, transport, lang, c, p, concurrent).result.Success?
    ensures var first := DriverStep(drivers, transport, lang, c, p, concurrent);
            DriverStep(first.drivers, transport, lang, c, p', concurrent') == first
  {
  }

  /**
   * A request without a language, whose detected language is already served,
   * is answered by that language's pool and leaves the registry unchanged.
   */
  lemma DetectedLanguageIsServed(drivers: map<string, DriverPool>, transport: string, req: Protocol.ParseUASTRequest,
                                 c: Collaborators, p: Provisioning, concurrent: Option<DriverPool>)
    requires req.language == ""
    requires c.getLanguage(req.filename, req.content) in drivers
    ensures ParseStep(drivers, transport, req, c, p, concurrent) ==
            DispatchStep(drivers, c.parse(drivers[c.getLanguage(req.filename, req.content)], req))
  {
  }

  /** One call on the registry, with the answers of its collaborators. */
  datatype Call =
    | AddDriverCall(lang: string, img: string, p: Provisioning)
    | DriverCall(lang: string, p: Provisioning, concurrent: Option<DriverPool>)
    | ParseUASTCall(req: Protocol.ParseUASTRequest, p: Provisioning, concurrent: Option<DriverPool>)

  /** The language a call is about. */
  function CallLanguage(call: Call, c: Collaborators): string
  {
    match call
    case AddDriverCall(lang, _, _) => lang
    case DriverCall(lang, _, _) => lang
    case ParseUASTCall(req, _, _) => RequestLanguage(req, c)
  }

  /** The registry after one call. */
  function Apply(drivers: map<string, DriverPool>, transport: string, c: Collaborators, call: Call): map<string, DriverPool>
  {
    match call
    case AddDriverCall(lang, img, p) => AddDriverStep(drivers, lang, img, c.newDriverImage, p).drivers
    case DriverCall(lang, p, concurrent) => DriverStep(drivers, transport, lang, c, p, concurrent).drivers
    case ParseUASTCall(req, p, concurrent) => ParseStep(drivers, transport, req, c, p, concurrent).drivers
  }

  /** The registry after a sequence of calls, first to last. */
  function Run(drivers: map<string, DriverPool>, transport: string, c: Collaborators, calls: seq<Call>): map<string, DriverPool>
    decreases |calls|
  {
    if calls == [] then drivers else Run(Apply(drivers, transport, c, calls[0]), transport, c, calls[1..])
  }

  /**
   * Over any sequence of calls, a registered pool is never replaced or
   * removed, and every language that gains a pool is one some call asked for.
   */
  lemma {:induction false} RunKeepsEveryPool(drivers: map<string, DriverPool>, transport: string, c: Collaborators,
                                             calls: seq<Call>)
    ensures forall k :: k in drivers ==> k in Run(drivers, transport, c, calls) &&
                                         Run(drivers, transport, c, calls)[k] == drivers[k]
    ensures forall k :: k in Run(drivers, transport, c, calls) ==>
                          k in drivers || exists i :: 0 <= i < |calls| && CallLanguage(calls[i], c) == k
    decreases |calls|
  {
    if calls != [] {
      var next := Apply(drivers, transport, c, calls[0]);
      assert forall k :: k in next && k != CallLanguage(calls[0], c) ==> k in drivers;
      RunKeepsEveryPool(next, transport, c, calls[1..]);
      forall k | k in Run(drivers, transport, c, calls) && k !in drivers
        ensures exists i :: 0 <= i < |calls| && CallLanguage(calls[i], c) == k
      {
        if k !in next {
          var i :| 0 <= i < |calls[1..]| && CallLanguage(calls[1..][i], c) == k;
          assert CallLanguage(calls[i + 1], c) == k;
        } else {
          assert CallLanguage(calls[0], c) == k;
        }
      }
    }
  }

  // ---------------------------------------------------------------------
  // Shutdown: the error accumulator of Close
  // ---------------------------------------------------------------------

  /** One iteration of Close's accumulator as written: a driver's error replaces `err` only when `err` is already set. */
  function CloseStepAsWritten(err: Option<Cause>, cerr: Option<Cause>): Option<Cause>
  {
    if cerr.Some? && err.Some? then cerr else err
  }

  /** What Close returns, as written, for the drivers' Close results in visiting order. */
  function CloseAsWritten(results: seq<Option<Cause>>): Option<Cause>
  {
    if results == [] then None
    else CloseStepAsWritten(CloseAsWritten(results[..|results| - 1]), results[|results| - 1])
  }

  /** As written, Close reports no error whatever its drivers report: `err` starts unset and nothing sets it. */
  lemma {:induction false} CloseAsWrittenIsNil(results: seq<Option<Cause>>)
    ensures CloseAsWritten(results) == None
  {
    if results != [] {
      CloseAsWrittenIsNil(results[..|results| - 1]);
    }
  }

  /** The accumulator step with the evidently intended guard: keep the first error. */
  function CloseStepIntended(err: Option<Cause>, cerr: Option<Cause>): Option<Cause>
  {
    if cerr.Some? && err.None? then cerr else err
  }

  /** What Close should return: the first driver error in visiting order, if any. */
  function CloseIntended(results: seq<Option<Cause>>): (r: Option<Cause>)
    ensures r.None? <==> forall i :: 0 <= i < |results| ==> results[i].None?
    ensures r.Some? ==> exists i :: 0 <= i < |results| && results[i] == r &&
                                    forall j :: 0 <= j < i ==> results[j].None?
  {
    if results == [] then None
    else
      var prefix := results[..|results| - 1];
      var r := CloseStepIntended(CloseIntended(prefix), results[|results| - 1]);
      assert forall i :: 0 <= i < |prefix| ==> prefix[i] == results[i];
      r
  }

  /** A single driver whose Close fails shows the difference: as written nil, as intended its error. */
  lemma CloseDropsDriverError(c: Cause)
    ensures CloseAsWritten([Some(c)]) == None
    ensures CloseIntended([Some(c)]) == Some(c)
  {
    assert [Some(c)][..0] == [];
  }

  // ---------------------------------------------------------------------
  // The server
  // ---------------------------------------------------------------------

  class Server {
    /** Transport used to fetch driver images; the constructor leaves it empty. */
    var Transport: string
    /** The runtime and the other collaborators the server calls. */
    const ext: Collaborators
    /** The registry: one driver pool per language. */
    var drivers: map<string, DriverPool>

    /** A new server has no drivers. */
    constructor (ext: Collaborators)
      ensures this.ext == ext
      ensures drivers == map[]
      ensures Transport == ""
    {
      this.ext := ext;
      drivers := map[];
      Transport := "";
    }

    /** Provision `lang` from image reference `img`; `p` answers this call's install and start. */
    method AddDriver(lang: string, img: string, p: Provisioning) returns (err: Option<Error>)
      modifies this`drivers
      ensures AddStep(drivers, err) == AddDriverStep(old(drivers), lang, img, ext.newDriverImage, p)
    {
      if lang in drivers {
        return Some(AlreadyInstalled(lang, img));
      }
      var image := ext.newDriverImage(img);
      if image.Failure? {
        return Some(Runtime(image.error));
      }
      var installErr := p.install(image.value, false);
      if installErr.Some? {
        return Some(Runtime(installErr.value));
      }
      var dp := p.start(image.value);
      if dp.Failure? {
        return Some(Foreign(dp.error));
      }
      drivers := drivers[lang := dp.value];
      return None;
    }

    /**
     * The pool for `lang`, provisioned with the default image on a miss.
     * `concurrent` is a pool another caller registers for `lang` between this
     * call's read and its AddDriver (None in a sequential run).
     */
    method Driver(lang: string, p: Provisioning, concurrent: Option<DriverPool>) returns (d: Result<DriverPool, Error>)
      modifies this`drivers
      ensures LookupStep(drivers, d) == DriverStep(old(drivers), Transport, lang, ext, p, concurrent)
    {
      if lang in drivers {
        return Success(drivers[lang]);
      }
      if concurrent.Some? {
        drivers := drivers[lang := concurrent.value];
      }
      var img := ext.defaultDriverImageReference(Transport, lang);
      var err := AddDriver(lang, img, p);
      if err.Some? && !err.value.AlreadyInstalled? {
        return Failure(MissingDriver(lang, err.value));
      }
      return Success(drivers[lang]);
    }

    /** Answer one parse request, never failing at the transport level. */
    method ParseUAST(req: Protocol.ParseUASTRequest, p: Provisioning, concurrent: Option<DriverPool>)
      returns (resp: Protocol.ParseUASTResponse)
      modifies this`drivers
      ensures DispatchStep(drivers, resp) == ParseStep(old(drivers), Transport, req, ext, p, concurrent)
    {
      var lang := req.language;
      if lang == "" {
        lang := ext.getLanguage(req.filename, req.content);
      }
      var d := Driver(lang, p, concurrent);
      if d.Failure? {
        return Protocol.ParseUASTResponse(Protocol.Fatal, [DriverErrorPrefix + Message(d.error)], None);
      }
      return ext.parse(d.value, req);
    }

    /**
     * Close every driver once, in an arbitrary order. `closed` is that order
     * and `results` what each driver's Close returned; the error returned is
     * the accumulator as written, which is always nil.
     */
    method Close() returns (err: Option<Cause>, ghost closed: seq<string>, ghost results: seq<Option<Cause>>)
      ensures forall k :: k in drivers <==> k in closed
      ensures forall i, j :: 0 <= i < j < |closed| ==> closed[i] != closed[j]
      ensures |results| == |closed|
      ensures forall i :: 0 <= i < |closed| ==> closed[i] in drivers && results[i] == ext.close(drivers[closed[i]])
      ensures err == CloseAsWritten(results)
      ensures err == None
    {
      err := None;
      closed, results := [], [];
      var rest := drivers.Keys;
      while rest != {}
        invariant rest <= drivers.Keys
        invariant forall k :: k in drivers ==> (k in closed <==> k !in rest)
        invariant forall i :: 0 <= i < |closed| ==> closed[i] in drivers
        invariant forall i, j :: 0 <= i < j < |closed| ==> closed[i] != closed[j]
        invariant |results| == |closed|
        invariant forall i :: 0 <= i < |closed| ==> results[i] == ext.close(drivers[closed[i]])
        invariant err == CloseAsWritten(results)
        invariant err == None
        decreases rest
      {
        var lang :| lang in rest;
        var cerr := ext.close(drivers[lang]);
        if cerr.Some? && err.Some? {
          err := cerr;
        }
        ghost var before := results;
        closed, results := closed + [lang], results + [cerr];
        assert results[..|results| - 1] == before;
        rest := rest - {lang};
      }
    }
  }
}
