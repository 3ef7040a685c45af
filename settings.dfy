/**
 * The project settings the core reads: the field length limits and the
 * username pattern. Their values are not part of this model, so every
 * operation takes them as a parameter.
 */
module Settings {
  import Validators

  datatype Config = Config(
    maxLenUsername: nat,                          // MAX_LEN_USERNAME
    maxLenEmail: nat,                             // MAX_LEN_EMAIL
    maxLenCode: nat,                              // MAX_LEN_CODE
    usernamePattern: Validators.UsernamePattern)  // USERNAME_REGEX
}
