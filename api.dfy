/** The backend's address constants and the helper that turns a stored image
    path into a URL on the main service. */
module ApiConstants {

  const SERVER_IP: string := "13.216.97.34"
  const AUTH_BASE_URL: string := "http://" + SERVER_IP + ":8081/"
  const MAIN_BASE_URL: string := "http://" + SERVER_IP + ":8080/"

  /** Kotlin's `removePrefix`: drop `prefix` once when `s` starts with it. */
  function RemovePrefix(s: string, prefix: string): (r: string)
    ensures prefix <= s ==> prefix + r == s
    ensures !(prefix <= s) ==> r == s
  {
    if prefix <= s then s[|prefix|..] else s
  }

  /** `getImageUrl`. */
  function GetImageUrl(imagePath: string): (r: string)
    ensures MAIN_BASE_URL <= r
    ensures |MAIN_BASE_URL| + |imagePath| - 1 <= |r| <= |MAIN_BASE_URL| + |imagePath|
  {
    MAIN_BASE_URL + RemovePrefix(imagePath, "/")
  }

  /** The URL is the main base followed by the path with at most one leading
      slash removed, so it always starts with the main service's address and
      is one character shorter than the plain concatenation exactly when the
      path starts with `/`. */
  lemma GetImageUrlSpec(imagePath: string)
    ensures "http://13.216.97.34:8080/" <= GetImageUrl(imagePath)
    ensures |imagePath| > 0 && imagePath[0] == '/' ==>
      GetImageUrl(imagePath) == "http://13.216.97.34:8080/" + imagePath[1..]
    ensures !(|imagePath| > 0 && imagePath[0] == '/') ==>
      GetImageUrl(imagePath) == "http://13.216.97.34:8080/" + imagePath
    ensures |GetImageUrl(imagePath)| ==
      |"http://13.216.97.34:8080/"| + |imagePath| - (if |imagePath| > 0 && imagePath[0] == '/' then 1 else 0)
  {
    assert MAIN_BASE_URL == "http://13.216.97.34:8080/";
    if |imagePath| > 0 && imagePath[0] == '/' {
      assert "/" <= imagePath;
    } else {
      assert !("/" <= imagePath);
    }
  }

  /** Only one slash is stripped: any path `p` and `"/" + p` give the same
      URL, and `"//x"` keeps its second slash. */
  lemma UnaSolaBarra(p: string)
    ensures GetImageUrl("/" + p) == MAIN_BASE_URL + p
    ensures GetImageUrl("//x") == MAIN_BASE_URL + "/x"
  {
    GetImageUrlSpec("/" + p);
    assert ("/" + p)[1..] == p;
    GetImageUrlSpec("//x");
    assert "//x"[1..] == "/x";
  }

  /** The two services share the scheme and host and differ only in the last
      digit of the port, 8081 against 8080. */
  lemma BasesDifierenSoloEnPuerto()
    ensures |AUTH_BASE_URL| == |MAIN_BASE_URL| == 25
    ensures forall i :: 0 <= i < 25 && i != 23 ==> AUTH_BASE_URL[i] == MAIN_BASE_URL[i]
    ensures AUTH_BASE_URL[23] == '1' && MAIN_BASE_URL[23] == '0'
    ensures AUTH_BASE_URL[..7] == "http://" && AUTH_BASE_URL[7..19] == SERVER_IP
  {
    assert AUTH_BASE_URL == "http://13.216.97.34:8081/";
    assert MAIN_BASE_URL == "http://13.216.97.34:8080/";
  }
}
