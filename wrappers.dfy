/** Optional values and fallible results, shared by every module of the model. */
module Wrappers {

  datatype Option<+T> = None | Some(value: T)

  datatype Result<+T, +E> = Success(value: T) | Failure(error: E)
}

/** The ways one batch run can stop early: each is a Python exception the
    mailer raises and that ends the run before the first send (in the
    preview of the first pass or in the counting loop) or in the middle of
    the batch. */
module Errors {

  datatype Error =
    | MalformedDocument    // the top-level document has no usable registration list
    | NotARecord           // a registration is not a JSON object (`reg.get` fails)
    | MembersWithoutLength // `members` is null, a boolean or a number (`len` fails)
    | NotAMemberRecord     // an iterated member is not a JSON object (`member.get` fails)
    | MissingName          // a member with an email has no `name` key (`member_data['name']`)
    | NameWithoutToken     // the name is not a string holding a non-blank word (`name.split()[0]`)
    | NoPreviewMember      // the first registration has no first member to preview (`first_reg['members'][0]`)
}
