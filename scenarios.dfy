/** The context-injection rule on concrete Camera inputs. */
module Scenarios {
  import opened Wrappers
  import opened Text
  import opened Catalog

  /** "Camera" with an input that does not name it gets the order sentence. */
  lemma CameraNotNamed(product: string, userInput: string)
    requires product == "Camera" && userInput == "I'd like one"
    ensures OutgoingMessage(Some(product), userInput)
         == "I would like to order a Camera (DSLR, 24MP, 4K Video). I'd like one"
  {
    NotNamedInLikeOne();
    OutgoingPrefixedWhenNotMentioned(product, userInput);
    assert Products[product] == "DSLR, 24MP, 4K Video";
    CameraSentence();
  }

  /** The order sentence for the Camera, spelled out (a step of CameraNotNamed). */
  lemma CameraSentence()
    ensures "I would like to order a " + "Camera" + " (" + "DSLR, 24MP, 4K Video" + "). " + "I'd like one"
         == "I would like to order a Camera (DSLR, 24MP, 4K Video). I'd like one"
  {
  }

  /** An input naming "Camera" is sent unchanged. */
  lemma CameraNamed()
    ensures OutgoingMessage(Some("Camera"), "I want a Camera please") == "I want a Camera please"
  {
    assert ToLower("Camera") == "camera";
    assert ToLower("I want a Camera please") == "i want a " + "camera" + " please";
    ContainsInfix("i want a ", "camera", " please");
  }

  /** Matching is by substring, not by word: "camera-ready" names the camera ... */
  lemma SubstringInsideWord()
    ensures Mentions("camera-ready", "Camera")
  {
  }

  /** ... while "camcorder" does not, so the order sentence is added. */
  lemma SimilarWordIsNoMention()
    ensures !Mentions("I need a new camcorder", "Camera")
  {
    assert ToLower("Camera") == "camera";
    assert ToLower("I need a new camcorder") == "i need a new camcorder";
    NoCameraInCamcorder();
  }

  /** "I'd like one" does not name the Camera (a step of CameraNotNamed). */
  lemma NotNamedInLikeOne()
    ensures !Mentions("I'd like one", "Camera")
  {
    assert ToLower("Camera") == "camera";
    assert ToLower("I'd like one") == "i'd like one";
    NoCameraInLikeOne();
  }

  /** The folded input "i'd like one" has no "c", so no "camera" (a step of NotNamedInLikeOne). */
  lemma NoCameraInLikeOne()
    ensures !Contains("i'd like one", "camera")
  {
    SkipToCandidate("i'd like one", "camera", 12);
  }

  /** No "camera" in the folded "i need a new camcorder" (a step of SimilarWordIsNoMention). */
  lemma NoCameraInCamcorder()
    ensures !Contains("i need a new camcorder", "camera")
  {
    var hay := "i need a new camcorder";
    SkipToCandidate(hay, "camera", 13);
    assert hay[13..] == "camcorder";
    NoCameraInCamcorderWord();
  }

  /** No "camera" in "camcorder" (a step of NoCameraInCamcorder). */
  lemma NoCameraInCamcorderWord()
    ensures !Contains("camcorder", "camera")
  {
    var c := "camcorder";
    assert c[..6] != "camera" by { assert c[3] != "camera"[3]; }
    assert c[1..] == "amcorder";
    SkipToCandidate("amcorder", "camera", 2);
    assert "amcorder"[2..] == "corder";
    assert "corder"[1] != "camera"[1];
    assert "corder"[1..] == "order";
    SkipToCandidate("order", "camera", 5);
  }
}
