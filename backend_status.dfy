/**
 * What a backend's publish hands back to the publish view: a dict with any of
 * the keys 'forms' (sub-forms the user must fill in first), 'error' (shown on
 * the text field) and 'data' (stored with the message).
 */
module BackendStatus {
  import opened Outcomes

  /** The renren login form as bound to the POST data: invalid, or its cleaned captcha key and captcha. */
  datatype CaptchaForm = InvalidCaptchaForm | ValidCaptchaForm(captchaKey: string, captcha: string)

  /** A sub-form returned under 'forms': the login captcha form, with or without the captcha error marked. */
  datatype BackendForm = LoginCaptchaForm(input: CaptchaForm, captchaError: bool)

  datatype Status = Status(forms: Option<seq<BackendForm>>, error: Option<string>, data: Option<string>)
}
