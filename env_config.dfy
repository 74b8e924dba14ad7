/**
 The deployment environment as the core reads it: the two flags `env.isProduction` and
 `env.isDevelopment`, both derived from one NODE_ENV value. Any value other than
 "production" and "development" (such as "test") sets neither flag.
 */
module EnvConfig {

  datatype NodeEnv = Development | Production | Test

  datatype Env = Env(nodeEnv: NodeEnv) {

    predicate IsProduction() { nodeEnv == Production }

    predicate IsDevelopment() { nodeEnv == Development }
  }
}
