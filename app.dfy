/** The page script.js drives: the response video element, the result text
    element and the script's global flags, with the handlers that change them. */
module App {
  import opened Dispatch

  class Page {
    // the <video> element that plays the response clip
    var src: string
    var visible: bool        // style.display is "block" rather than "none"
    var paused: bool
    var currentTime: real
    var controls: bool
    // the element showing the recognised gesture
    var resultText: string
    // the script's globals
    var debugMode: bool
    var isModelLoaded: bool
    var hasWebcam: bool      // `webcam` is not null

    /** The globals as the script declares them: no model, no camera, no debug panel. */
    constructor ()
      ensures !isModelLoaded && !hasWebcam && !debugMode
    {
      isModelLoaded, hasWebcam, debugMode := false, false, false;
    }

    /** The video element after a frame's request `a`. Assigning a source runs
        the media element's load algorithm (rewind, pause); the play attempt
        that follows then either starts the clip or is rejected, which leaves it
        paused and, through the rejection handler, turns the controls on.
        `playRejected` stands for every reason the play attempt is rejected
        (autoplay refused, or the attempt aborted by a later load or pause),
        and the rejection is charged to the call that started the attempt. */
    twostate predicate VideoAfter(a: Action, playRejected: bool)
      reads this
    {
      match a
      case Play(source) =>
        && src == source && visible && currentTime == 0.0
        && paused == playRejected && controls == (old(controls) || playRejected)
      case Stop =>
        && !visible && paused && currentTime == 0.0
        && src == old(src) && controls == old(controls)
      case Keep =>
        && src == old(src) && visible == old(visible) && paused == old(paused)
        && currentTime == old(currentTime) && controls == old(controls)
    }

    /** Hides, pauses and rewinds the response video, whatever it was doing. */
    method HideResponseVideo()
      modifies this`visible, this`paused, this`currentTime
      ensures !visible && paused && currentTime == 0.0
      ensures VideoAfter(Stop, false)
    {
      visible := false;
      paused := true;
      currentTime := 0.0;
    }

    /** Shows and starts the clip of `className` when the table has one;
        otherwise the video element is left alone. */
    method PlayResponseVideo(className: string, playRejected: bool)
      modifies this`src, this`visible, this`paused, this`currentTime, this`controls
      ensures className in VideoSources ==> src == VideoSources[className] && visible
      ensures className !in VideoSources ==> unchanged(this)
      ensures VideoAfter(PlayRequest(className), playRejected)
    {
      if className in VideoSources && VideoSources[className] != "" {
        src := VideoSources[className];
        // the load algorithm run by the assignment above
        currentTime := 0.0;
        paused := true;
        visible := true;
        // the play() attempt and, when it is rejected, its rejection handler
        if playRejected {
          controls := true;
        } else {
          paused := false;
        }
      }
    }

    /** Shows the top prediction of a frame and starts or stops the video. */
    method UpdateResults(prediction: Prediction, playRejected: bool)
      modifies this`src, this`visible, this`paused, this`currentTime, this`controls, this`resultText
      ensures resultText == Decide(prediction).text
      ensures VideoAfter(Decide(prediction).action, playRejected)
      ensures prediction.probability >= ConfidenceThreshold ==> resultText == prediction.className
      ensures prediction.probability >= ConfidenceThreshold && prediction.className in VideoSources ==>
        src == VideoSources[prediction.className] && visible
      ensures prediction.probability >= ConfidenceThreshold && prediction.className !in VideoSources ==>
        && src == old(src) && visible == old(visible) && paused == old(paused)
        && currentTime == old(currentTime) && controls == old(controls)
      ensures prediction.probability < ConfidenceThreshold ==>
        resultText == Indeterminate && !visible && paused && currentTime == 0.0
    {
      if Recognised(prediction.probability) {
        resultText := prediction.className;
        PlayResponseVideo(prediction.className, playRejected);
      } else {
        resultText := Indeterminate;
        HideResponseVideo();
      }
    }

    /** One frame: does nothing until both the model and the camera are ready,
        then selects the top prediction of the classifier's output and shows it.
        An empty output makes the source fail before touching the page. */
    method Predict(predictions: seq<Prediction>, playRejected: bool)
      modifies this`src, this`visible, this`paused, this`currentTime, this`controls, this`resultText
      ensures !isModelLoaded || !hasWebcam || |predictions| == 0 ==> unchanged(this)
      ensures isModelLoaded && hasWebcam && |predictions| > 0 ==>
        && resultText == Tick(predictions).value.text
        && VideoAfter(Tick(predictions).value.action, playRejected)
    {
      if !isModelLoaded || !hasWebcam {
        return;
      }
      var top := SelectTop(predictions);
      if top.None? {
        return;
      }
      UpdateResults(top.value, playRejected);
    }

    /** Shows or hides the debug panel. */
    method ToggleDebug()
      modifies this`debugMode
      ensures debugMode == !old(debugMode)
    {
      debugMode := !debugMode;
    }
  }
}

/** Sequences of handler calls and what they leave behind. */
module Scenarios {
  import opened Dispatch
  import opened App

  /** Toggling the debug mode twice restores it. */
  method ToggleDebugTwice(page: Page)
    modifies page`debugMode
    ensures page.debugMode == old(page.debugMode)
  {
    page.ToggleDebug();
    page.ToggleDebug();
  }

  /** A recognised gesture plays its clip; when the next frame falls below the
      threshold the clip is hidden, paused and rewound, and the text reverts. */
  method GestureThenLowConfidence(page: Page, playRejected: bool)
    requires page.isModelLoaded && page.hasWebcam
    modifies page
    ensures page.src == "videos/resposta_letra_a.mp4"
    ensures page.resultText == Indeterminate
    ensures !page.visible && page.paused && page.currentTime == 0.0
  {
    page.Predict([Prediction("derivada_1_x", 0.05), Prediction("letra_a", 0.95)], playRejected);
    assert page.resultText == "letra_a" && page.visible;
    page.Predict([Prediction("derivada_1_x", 0.4), Prediction("letra_a", 0.6)], playRejected);
  }
}
